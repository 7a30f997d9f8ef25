# Stock ledger and turnover statement — a Dafny model

This project models the stock-ledger engine of the repository,
`task2/src/logics/osv_service.py`, in Dafny, together with the parts it relies on.

The engine produces the turnover statement ("ОСВ"). For every catalogue item
it gives the opening balance, the receipts and issues of a date window, and
the closing balance, all in base units. It can also do two things around a
block date:

- take a snapshot of the closing balances up to that date;
- answer "balance at date X" by replaying, on top of the snapshot, only the
  movements dated after it.

Around the engine, these parts are covered too.

- units of measure and their conversion (`unit_model`);
- the statement row and its derived closing balance (`osv_row_model`);
- the in-memory repository;
- the two row-filter engines over dotted field paths (`filter_utils`,
  `filter_engine`);
- filter-spec parsing (`FilterDTO.from_dict`, `filter_parser.parse`);
- the argument validator and `error_proxy.wrap`;
- the validating reference models: `abstract_reference`, nomenclature,
  organisation, company, the root `Settings` record and the warehouse;
- the convert factory and its converters;
- the Markdown table renderer (`response_md.create_response`, whose code
  `MarkdownFormatter.format` repeats).

The modelling choices are these.

- Python exceptions are the `Raise` case of a `Result` (`results.dfy`), with
  the exception class as an `ExcKind`.
- Python's dynamic values are one `Value` datatype (`values.dfy`).
- Classes whose setters update fields in place are Dafny classes, and their
  setters are methods. A setter returns the refusal it would raise, or `None`.
- Constructors that can raise are module-level methods returning
  `Result<Class>`.
- Value-like records are datatypes: units, warehouses, movements, statement
  rows, snapshot entries and balances.
- Each loop of the engine is a method. Its `ensures` ties the result to a
  specification function, and the statement's properties are lemmas about
  those functions.
- Quantities are `real`. Dates are day numbers, the ordinal Python's
  `date.toordinal()` gives, so `date(1900, 1, 1)` is the constant `Day0`.

The central results:

- **Closing balance.** A row's closing is the base-unit sum of its item's
  matching movements up to the end date (`OsvProofs.RowClosing`).
- **Block-date independence.** For a target after both dates, the balances
  computed with block date b1 and with b2 are equal
  (`BalanceProofs.BlockDateIndependence`). This needs three preconditions:
  - catalogue ids are distinct and every movement's item is in the
    catalogue;
  - each item moves through one warehouse;
  - each item moves in one unit, which has no base.

  `BalanceProofs.MixedUnitsBreakIndependence` shows that the unit condition
  cannot be dropped.
- **Filtering is a conjunction.** The sequential narrowing of `filter_objects`
  equals keeping the rows that pass every filter (`FilterUtils.NarrowIsKeep`).
  `filter_engine` keeps exactly the same rows (`FilterEngine.Match`).
- **Key ordering.** `_sort_keys` is a reordering: same entries, preferred keys
  first, idempotent.
- **Conversion is stable.** Converting a JSON-shaped value twice changes
  nothing (`ConvertFactory.ConvertStable`).
- **Markdown renderer.** It succeeds exactly when every row has the first
  row's keys. It then yields the header line, the separator line and one line
  per row (`Markdown.TableOk`, `Markdown.TableLines`).

## Model

| member | source | states |
|---|---|---|
| Units.MakeUnit | task2/src/models/unit_model.py:28-44 | construction succeeds exactly when the name is empty or valid, the factor is an int (a bool counts) greater than zero and the base is a unit or None; the unit then carries the name as the name setter stores it, that factor and base; every refusal is `argument_exception` |
| Units.FromBase | task2/src/models/unit_model.py:69-77 | `from_base` raises `argument_exception` exactly for a zero factor; otherwise its result times the factor is the input |
| Units.RoundTrip | task2/src/models/unit_model.py:60-77 | for a positive factor, `from_base(to_base(v)) == v` and `to_base(from_base(v)) == v` for every quantity |
| Units.ToBaseIgnoresBase | task2/src/models/unit_model.py:60-66 | `to_base` uses the unit's own factor only: units with equal factors convert alike whatever their bases |
| Units.FactorOneIsIdentity | task2/tst/test_additional.py:183-197 | a unit with factor 1 leaves every quantity unchanged in both directions |
| Units.ToBasePreservesSign | task2/src/models/unit_model.py:60-66 | with a positive factor, `to_base` keeps a quantity's sign |
| Units.ToDict | task2/src/models/unit_model.py:79-84 | `to_dict` has exactly the keys `name`, `coefficient` (the factor) and `base` (the base's name or None), and no `id` |
| Units.ToBase | task2/src/models/unit_model.py:60-66 | definition, no contract; properties in Units.RoundTrip, Units.ToBaseIgnoresBase, Units.FactorOneIsIdentity and Units.ToBasePreservesSign: the value times the unit's own factor |
| Units.KilogramConversions | task2/tst/test_new_models.py:26-27 | `kilo.to_base(2) == 2000` and `kilo.from_base(2000) == 2.0` |
| Units.MakeUnitAccepted | task2/src/models/unit_model.py:28-44 | an accepted name, an int or bool factor above zero and a base that is None or a unit always construct, and the unit carries exactly that name, factor, base, code and id (the tests' gram and kilogram are instances) |
| Units.ZeroFactorRejected | task2/tst/test_additional.py:175-181 | a factor of 0 raises, whatever the name and base (`unit_model("bad", 0)` in the test) |
| Units.TrueFactorIsOne | task2/src/models/unit_model.py:31-37 | a bool factor passes the int check and `True` constructs a unit of factor 1, for any accepted name and base |
| OsvRows.ClosingIsDerived | task2/src/models/osv_row_model.py:23-28 | `closing` is derived: shifting opening, incoming or outgoing shifts it by the same amount (the opposite for outgoing), and warehouse, item and unit do not affect it |
| OsvRows.ZeroRowClosesAtZero | task2/src/models/osv_row_model.py:27-28 | a row with zero opening, incoming and outgoing closes at zero |
| OsvRows.ClosingBound | task2/src/models/osv_row_model.py:27-28 | with non-negative outgoing, closing never exceeds opening plus incoming |
| OsvRows.Add | task2/src/models/osv_row_model.py:28 | Python `+` on two stored numbers: its value is the sum of theirs, and it is an `int` exactly when both are |
| OsvRows.Subtract | task2/src/models/osv_row_model.py:28 | Python `-` on two stored numbers: its value is the difference, and it is an `int` exactly when both are |
| OsvRows.Negate | task2/src/logics/osv_service.py:160 | unary minus negates the value and keeps an `int` an `int` and a `float` a `float` |
| OsvRows.OsvRow.Closing | task2/src/models/osv_row_model.py:23-28 | the closing is an `int` exactly when opening, incoming and outgoing all are |
| Storage.ItemById | task2/src/logics/osv_service.py:83 | `get_nomenclature_by_id` finds an item exactly when one has that id, and what it finds has that id and is in the list |
| Storage.UnitById | task2/src/logics/osv_service.py:84 | `get_unit_by_id` finds a unit exactly when one has that id, and what it finds has that id and is in the list |
| Storage.WarehouseById | task2/src/logics/osv_service.py:82 | `get_warehouse_by_id` finds a warehouse exactly when one has that id, and what it finds has that id and is in the list |
| Storage.ItemByOwnId | task2/src/logics/osv_service.py:104 | among items with distinct ids, looking an item up by its own id finds that item |
| Storage.StorageRepository.constructor | task2/src/core/storage_repository.py:10-14 | a new repository has every list empty (and no snapshot) |
| Storage.StorageRepository.AddNomenclature | task2/src/core/storage_repository.py:16-17 | appends the item at the end of `nomenclatures`, duplicates kept, and leaves every other list unchanged |
| Storage.StorageRepository.AddUnit | task2/src/core/storage_repository.py:19-20 | appends at the end of `units` and leaves every other list unchanged |
| Storage.StorageRepository.AddGroup | task2/src/core/storage_repository.py:22-23 | appends at the end of `groups` and leaves every other list unchanged |
| Storage.StorageRepository.AddReceipt | task2/src/core/storage_repository.py:25-26 | appends at the end of `receipts` and leaves every other list unchanged |
| Storage.StorageRepository.AddTransaction | task2/src/logics/osv_service.py:94 | appends a movement at the end of `transactions`, the list the engine reads, and leaves every other list unchanged |
| Storage.StorageRepository.SaveTurnoversSnapshot | task2/src/logics/osv_service.py:53 | the snapshot slot holds the saved list for its block date; the lists are unchanged |
| Storage.StorageRepository.LoadTurnoversSnapshot | task2/src/logics/osv_service.py:75 | yields the saved list exactly when it was saved for the requested date |
| Storage.StorageRepository.AddWarehouse | task2/src/logics/osv_service.py:145 | appends a warehouse at the end of `warehouses`, the list `generate` searches, and leaves every other list unchanged |
| Warehouses.RemoveSpaces | task2/src/models/warehouse_model.py:14 | `replace(" ", "")` leaves no space, never lengthens, keeps a space-free string as it is and adds no character |
| Warehouses.GenerateCode | task2/src/models/warehouse_model.py:13-14 | the generated code has at most three characters and no space, each the upper-case of one of the name's first three; a space-free prefix gives exactly its upper-case |
| Warehouses.MakeWarehouse | task2/src/models/warehouse_model.py:9-11 | construction succeeds exactly when the name is empty or valid; a non-empty explicit code is kept as given, a missing or empty one is generated from the name |
| Warehouses.ToDict | task2/src/models/warehouse_model.py:16-20 | `to_dict` has exactly the keys `name` and `code`, and no `id` |
| Warehouses.MainWarehouseCode | task2/tst/test_block_period.py:26 | the warehouse named "Main Warehouse" gets the code "MAI" |
| References.CheckedName | task2/src/core/abstract_reference.py:61-67 | the `name` setter accepts exactly a string that is not blank after stripping and whose stripped length is at most 50, and stores it stripped; every refusal is `argument_exception` |
| References.CheckedCode | task2/src/core/abstract_reference.py:27-30 | the `unique_code` setter accepts exactly a non-blank string and stores it stripped |
| References.StoredNameIsStable | task2/src/core/abstract_reference.py:61-67 | a stored name passes the setter again unchanged |
| References.Reference.constructor | task2/src/core/abstract_reference.py:17-19 | a reference starts with its unique code and the name "" |
| References.Reference.SetName | task2/src/core/abstract_reference.py:61-67 | an accepted name is stored stripped; a rejected one raises `argument_exception` and leaves the previous name; the unique code is untouched |
| References.Reference.SetUniqueCode | task2/src/core/abstract_reference.py:27-30 | a non-blank code is stored stripped; a blank one raises and leaves the previous code; the name is untouched |
| References.NewReference | task2/src/core/abstract_reference.py:45-53 | construction succeeds exactly when the name is empty or valid; an empty name leaves `name == ""`, otherwise it is stored stripped |
| References.Reference.Equals | task2/src/core/abstract_reference.py:33-34 | definition, no contract; properties in none beyond its body: `__eq__` compares the unique code with the other object, and for two references Python's reflected `__eq__` compares the two codes, which is what the predicate states |
| Validator.Validate | task2/src/core/validator.py:51-75 | `validate` returns True exactly for a value that is not None, is an instance of the expected class or tuple of classes and, if a string, is not blank and within the length limit after stripping; a refusal is `argument_exception`, except a type mismatch against a tuple, which raises `AttributeError` because the message reads the tuple's missing `__name__` |
| Validator.NumberTupleCheck | task2/src/models/unit_model.py:60-66 | the `(int, float)` check in `to_base` passes exactly the numbers (bool included) and refuses any other value that is not None with an `AttributeError`, which the surrounding `except argument_exception` does not catch |
| Validator.ValidateString | task2/src/core/validator.py:69-73 | a string is accepted exactly when it holds a non-whitespace character and its stripped length is within the limit (if any) |
| Validator.Wrap | task2/src/core/validator.py:32-42 | the wrapped call succeeds exactly when the call does, with the same value; `argument_exception` passes through unchanged, any other exception becomes `rethrow` with the same message |
| Validator.WrapIdempotent | task2/src/core/validator.py:35-40 | wrapping twice with the same target class is the same as wrapping once |
| Nomenclatures.CheckedFullName | task2/src/models/nomenclature_model.py:33-36 | the `full_name` setter accepts exactly a non-blank string of at most 255 characters once stripped and stores it stripped; refusals are `argument_exception` |
| Nomenclatures.Nomenclature.constructor | task2/src/models/nomenclature_model.py:14-16 | a new item has an empty full name and no group or unit |
| Nomenclatures.Nomenclature.SetFullName | task2/src/models/nomenclature_model.py:33-36 | an accepted full name is stored stripped; a refused one raises and keeps the old value; group and unit are untouched |
| Nomenclatures.Nomenclature.SetGroup | task2/src/models/nomenclature_model.py:43-47 | only a `group_model` is stored; anything else raises `argument_exception` and keeps the old group |
| Nomenclatures.Nomenclature.SetUnit | task2/src/models/nomenclature_model.py:54-58 | only a `unit_model` is stored; anything else raises `argument_exception` and keeps the old unit |
| Nomenclatures.NewNomenclature | task2/src/models/nomenclature_model.py:18-26 | construction succeeds exactly when the name and full name are empty or valid and group and unit are None or of the right class; what is given is stored through its setter |
| Nomenclatures.AssignGiven | task2/src/models/nomenclature_model.py:21-26 | assigning the given full name, group and unit succeeds exactly when each is empty or valid; on success the stripped full name and the given group and unit are stored |
| Organizations.DigitsAreStripped | task2/src/models/organization_model.py:68-70 | a value that passed the digit check is stored unchanged by the `.strip()` that follows it |
| Organizations.CheckedDigits | task2/src/models/organization_model.py:65-70 | the digit-field setters accept exactly a non-empty string of the required length made of the digits 0-9 (`isdigit()` narrowed to ASCII, see "Left out"); refusals are `argument_exception` |
| Organizations.DigitsPassValidate | task2/src/models/organization_model.py:67 | a string of digits passes the `str` validation that each digit-field setter runs first |
| Organizations.CheckedOwnership | task2/src/models/organization_model.py:113-118 | the `ownership` setter accepts exactly a non-blank string of at most 50 characters once stripped and stores it stripped |
| Organizations.PaddedInnRefused | task2/src/models/organization_model.py:68 | the digit check runs on the raw value, so a 12-digit tax number with a leading space is refused |
| Organizations.Organization.constructor | task2/src/models/organization_model.py:15-19 | a new organisation has every bank detail "" |
| Organizations.Organization.SetInn | task2/src/models/organization_model.py:65-70 | `inn` takes exactly 12 digits; a refusal raises and keeps every field |
| Organizations.Organization.SetAccount | task2/src/models/organization_model.py:77-82 | `account` takes exactly 11 digits; a refusal raises and keeps every field |
| Organizations.Organization.SetCorrAccount | task2/src/models/organization_model.py:89-94 | `corr_account` takes exactly 11 digits; a refusal raises and keeps every field |
| Organizations.Organization.SetBik | task2/src/models/organization_model.py:101-106 | `bik` takes exactly 9 digits; a refusal raises and keeps every field |
| Organizations.Organization.SetOwnership | task2/src/models/organization_model.py:113-118 | `ownership` takes a valid value stripped; a refusal raises and keeps every field |
| Organizations.AssignBankDetails | task2/src/models/organization_model.py:45-54 | the non-empty details are all stored exactly when each passes its setter; otherwise `argument_exception` |
| Organizations.NewOrganization | task2/src/models/organization_model.py:28-57 | a settings argument of the wrong class or without a company raises; otherwise the company's name and inn replace the arguments, and construction succeeds exactly when every non-empty detail and the name pass their setters, which then hold those values |
| Companies.Company.constructor | task2/src/models/company_model.py:2-3 | a new company has name and inn "" |
| Companies.Company.SetName | task2/src/models/company_model.py:9-12 | a blank name is ignored silently; anything else is stored stripped; inn is untouched |
| Companies.Company.SetInn | task2/src/models/company_model.py:18-23 | the raw value must be 12 characters long (no digit check) and is stored stripped; otherwise `ValueError` and nothing changes |
| AppSettings.Settings.SetInn | src/models/settings.py:15-19 | `inn` takes exactly a 12-character string, stored as given; otherwise `ValueError` and no field changes |
| AppSettings.Settings.SetAccount | src/models/settings.py:25-29 | `account` takes exactly an 11-character string; otherwise `ValueError` and no field changes |
| AppSettings.Settings.SetCorrAccount | src/models/settings.py:35-39 | `corr_account` takes exactly an 11-character string; otherwise `ValueError` and no field changes |
| AppSettings.Settings.SetBik | src/models/settings.py:45-49 | `bik` takes exactly a 9-character string; otherwise `ValueError` and no field changes |
| AppSettings.Settings.SetName | src/models/settings.py:55-59 | `name` takes any non-blank string and stores it stripped; otherwise `ValueError` and no field changes |
| AppSettings.Settings.SetOwnership | src/models/settings.py:65-69 | `ownership` takes exactly a 5-character string; otherwise `ValueError` and no field changes |
| AppSettings.NewSettings | src/models/settings.py:2-9 | construction succeeds exactly when all six values are valid, and then holds them (the name stripped); otherwise `ValueError` |
| FilterDtos.TypeByName | task2/src/models/filter_dto.py:34-36 | the enum lookup by name succeeds exactly for "EQUALS" and "LIKE" and returns the member of that name |
| FilterDtos.TypeByOwnName | task2/src/models/filter_dto.py:34 | every operator is found again under its own name |
| FilterDtos.FromDict | task2/src/models/filter_dto.py:12-46 | `from_dict` succeeds exactly for a dict whose `field_name`, `value` and `filter_type` are present and not None and whose type is an enum member or a string naming one after strip and upper-casing; the field and value are copied unchanged; every refusal is `ValueError` |
| FilterDtos.FromDictWithTypeName | task2/src/models/filter_dto.py:31-46 | a well-formed dict with a type name that normalises to an operator yields exactly that DTO |
| FilterDtos.PaddedLowerCaseTypeAccepted | task2/src/models/filter_dto.py:31-34 | a lower-case "like" padded with white space on either side is accepted as LIKE |
| FilterDtos.NameNormalised | task2/src/models/filter_dto.py:31-34 | an operator's own name is unchanged by strip and upper-casing |
| FilterDtos.MemberAccepted | task2/src/models/filter_dto.py:12-46 | a dict whose `filter_type` is an operator member gives exactly the DTO with that operator and the field and value copied |
| FilterParser.ParseItem | task2/src/core/filter_parser.py:20-40 | one item is accepted exactly when it is a dict holding all three required keys and its `filter_type` is a `str` instance (a string or a `str`-derived enum member) whose text is the exact name of an operator (no normalisation); the DTO copies the field and value; an unhashable type (a list, a dict or a model object, whose class defines `__eq__` without `__hash__`) raises `TypeError`, every other refusal `ValueError` |
| FilterParser.MemberParsed | task2/src/core/filter_parser.py:20-40 | an item whose `filter_type` is already an operator member parses to exactly that operator, with the field and value copied |
| FilterParser.ModelObjectTypeRaises | task2/src/core/filter_parser.py:30 | a model object (a reference, unit, warehouse, ...) as `filter_type` raises `TypeError`, not `ValueError` |
| FilterParser.Parse | task2/src/core/filter_parser.py:14-42 | a non-list raises `ValueError`; otherwise the result is the items parsed in order, one DTO per item, and the first bad item's error is raised |
| FilterUtils.NilStaysNil | task2/src/core/filter_utils.py:14-16 | once the current value is None every remaining path gives None |
| FilterUtils.SingleKeyIsGet | task2/src/core/filter_utils.py:18-20 | a one-piece path into a dict is an exact, case-sensitive `get` |
| FilterUtils.DateFieldPath | task2/src/core/filter_utils.py:18-24 | a path `key.year` into a dict holding a datetime resolves to that datetime's year |
| FilterUtils.GetNestedValue | task2/src/core/filter_utils.py:3-37 | the loop computes the path's value: dict `get`, then attribute, stopping with None at a None or a missing attribute |
| FilterUtils.KeepIfIsSubsequence | task2/src/core/filter_utils.py:48-64 | the rows a filter keeps are a subsequence of its input, in the input's order |
| FilterUtils.KeepIfMembership | task2/src/core/filter_utils.py:50-64 | a row is kept exactly when it is in the input and the filter accepts it |
| FilterUtils.KeepIfAll | task2/src/core/filter_utils.py:48-66 | a filter that accepts every row keeps the input unchanged |
| FilterUtils.KeepIfTwice | task2/src/core/filter_utils.py:47-66 | narrowing by one predicate and then another equals keeping by their conjunction |
| FilterUtils.KeepProperties | task2/src/core/filter_utils.py:40-68 | the all-filters selection is an order-preserving subsequence whose members are exactly the input rows passing every filter; no filters keeps everything |
| FilterUtils.PassesAllSnoc | task2/src/core/filter_utils.py:47-66 | passing the filters plus one more is passing the filters and the new one |
| FilterUtils.NarrowIsKeep | task2/src/core/filter_utils.py:45-68 | the left-to-right narrowing pipeline equals one pass keeping the rows that pass all filters |
| FilterUtils.NarrowKeepsProperty | task2/src/core/filter_utils.py:45-68 | every row of the narrowed list satisfies any property that all input rows satisfy |
| FilterUtils.FilterObjects | task2/src/core/filter_utils.py:40-68 | the nested loops compute the narrowing pipeline |
| FilterUtils.SelectPass | task2/src/core/filter_utils.py:48-64 | one filter's inner loop keeps, in order, exactly the objects whose value passes that filter |
| FilterUtils.SelectStep | task2/src/core/filter_utils.py:50-64 | looking at one more object appends it to the kept list when it passes, and leaves the list as it was otherwise |
| FilterEngine.GetNested | task2/src/core/filter_engine.py:8-20 | `get_nested` resolves every path to the same value as `get_nested_value` |
| FilterEngine.Match | task2/src/core/filter_engine.py:23-37 | `match` accepts exactly the rows `filter_objects` keeps for that filter, and never one whose field resolves to None |
| FilterEngine.Filter | task2/src/core/filter_engine.py:40-45 | `filter` keeps, in order, exactly the rows all filters match |
| FilterEngine.FilterIdempotent | task2/src/core/filter_engine.py:40-45 | filtering the output again with the same filters changes nothing |
| Values.StrText | task2/src/logics/convert_factory.py:27 | a value has string text exactly when it is an instance of `str`: a string, or a member of a `str`-derived enum with a string value |
| Values.GetAttr | task2/src/core/filter_engine.py:18 | `getattr` on a model object reads its own attributes, and None, strings, lists and dicts have none; a datetime gives its `year`, `month` and `day`, an int or float is its own `real`, and an enum member gives its `name` and `value` |
| Values.StrRepr | task2/src/core/filter_utils.py:55 | `repr` of a string, as `str` of a list or dict shows it, starts and ends with the same quote and is at least two characters longer |
| Values.StrReprPlain | task2/src/core/filter_utils.py:55 | a string with no backslash or control character, and not holding both kinds of quote, is shown as itself between double quotes when it holds a single quote and between single quotes otherwise |
| Values.ToStr | task2/src/core/filter_utils.py:55-56 | definition, no contract; properties in Osv.QuietPeriodIsIntZero and Markdown.Render: Python `str()` of a value (a string as itself, other values as `repr`) |
| Values.Repr | task2/src/core/filter_utils.py:55 | definition, no contract; properties in Values.StrReprPlain: Python `repr()`, strings quoted through Values.StrRepr, lists and dicts as their displays |
| Text.Strip | task2/src/core/abstract_reference.py:67 | definition, no contract; properties in Text.StripIdempotent, Text.StripUnchanged, Text.BlankIffAllSpace and References.StoredNameIsStable: `str.strip()` with Python's whitespace set |
| Text.Lower | task2/src/core/filter_utils.py:55-56 | definition, no contract; properties in Text.LowerIdempotent: `str.lower()` for ASCII and basic Cyrillic (narrowing under "Left out") |
| Text.Upper | task2/src/models/filter_dto.py:32 | definition, no contract; properties in FilterDtos.NameNormalised and FilterDtos.UpperLike: `str.upper()` for ASCII and basic Cyrillic |
| Text.Split | task2/src/core/filter_utils.py:10 | definition, no contract; properties in Text.JoinSplit: `str.split(sep)`, whose pieces joined with `sep` give the string back |
| Osv.Where | task2/src/logics/osv_service.py:138-141 | the list comprehension keeps exactly the movements of the ledger satisfying the condition, and no more of them |
| Osv.WhereKeepsOrder | task2/src/logics/osv_service.py:138-141 | the kept movements are a subsequence of the ledger, in ledger order, and each movement occurs in them as often as in the ledger when it satisfies the condition and not at all otherwise |
| Osv.WhereFirst | task2/src/logics/osv_service.py:162-165 | the first kept movement (`relevant[0]`) is the ledger's first movement satisfying the condition |
| Osv.WhereNone | task2/src/logics/osv_service.py:138-143 | when no movement satisfies the condition, nothing is kept (`not relevant`) |
| Osv.FirstMatching | task2/src/logics/osv_service.py:144-147 | `next(...)` gives the first warehouse of the list that matches the filter (it matches, and every warehouse before it does not), or None exactly when no warehouse of the list matches |
| Osv.WarehouseMatch | task2/src/logics/osv_service.py:212-219 | definition, no contract; properties in Osv.FirstMatching and OsvProofs.RowWarehouseMatches: no wanted warehouse matches everything; otherwise the lower-cased text is in the name or equals the code |
| Osv.TableKeysDiffer | task2/src/logics/osv_service.py:176-182 | the seven column names of a table row are distinct |
| Osv.TableSections | task2/src/logics/osv_service.py:176-178 | a table row's warehouse, item and unit sections read back as they were put in |
| Osv.TableOpening | task2/src/logics/osv_service.py:179 | the opening-balance column reads back the row's opening |
| Osv.TableIncoming | task2/src/logics/osv_service.py:180 | the receipts column reads back the row's incoming |
| Osv.TableOutgoing | task2/src/logics/osv_service.py:181 | the issues column reads back the row's outgoing |
| Osv.TableAmounts | task2/src/logics/osv_service.py:203-205 | the amounts the rebuild step reads back are the row's own opening, incoming and outgoing |
| Osv.ReportItemsNamed | task2/src/logics/osv_service.py:148-171 | every row of the unfiltered statement carries its catalogue item |
| Osv.ProjectAll | task2/src/logics/osv_service.py:174-185 | one table per statement row, in order |
| Osv.Project | task2/src/logics/osv_service.py:174-185 | definition, no contract; properties in OsvFindings.RebuildProject and Osv.ProjectedRebuildable: the table of one row, sections with ids |
| Osv.Table | task2/src/logics/osv_service.py:174-185 | definition, no contract; properties in Osv.TableSections, Osv.TableOpening, Osv.TableIncoming, Osv.TableOutgoing and Osv.TableAmounts: the seven columns read back what was put in |
| Osv.ProjectAsWritten | task2/src/logics/osv_service.py:177 | definition, no contract; properties in OsvFindings.FilteredStatementRaises: the item has no `to_dict`, so building the table raises AttributeError |
| Osv.ProjectWithSourceDicts | task2/src/logics/osv_service.py:176-178 | definition, no contract; properties in OsvFindings.SourceDictsLoseWarehouseAndUnit: the sections from the source's own `to_dict`, which carry no id |
| Osv.RebuildAll | task2/src/logics/osv_service.py:189-206 | one rebuilt row per kept table, in order, for tables the loop can read without raising: an item section holding an `id`, and dict warehouse and unit sections where present |
| Osv.Rebuild | task2/src/logics/osv_service.py:190-206 | definition, no contract; properties in OsvFindings.RebuildProject and OsvFindings.RebuildTail: one table back to a row, objects looked up by id |
| Osv.NarrowKeepsRebuildable | task2/src/logics/osv_service.py:187-192 | the filters only drop tables, so every kept table still has the item section and `id` the rebuild step indexes |
| Osv.ProjectedRebuildable | task2/src/logics/osv_service.py:174-185 | every table built from a statement row has an item section holding an `id` and dict warehouse and unit sections, so the rebuild step cannot raise on it |
| Osv.Get | task2/src/logics/osv_service.py:99 | `balances_map.get(key)` finds a value exactly when some entry has that key |
| Osv.Put | task2/src/logics/osv_service.py:99 | assigning an existing key keeps the dict's size; a new key is appended at the end (insertion order) |
| Osv.OsvPrototype.constructor | task2/src/logics/osv_service.py:117-118 | the prototype works over the repository it is given |
| Osv.OsvPrototype.Clone | task2/src/logics/osv_service.py:120-124 | a clone is a new prototype over the same repository |
| Osv.OsvPrototype.Generate | task2/src/logics/osv_service.py:126-210 | `generate` returns the statement: one row per catalogue item in catalogue order, and with filters those rows whose tables pass, rebuilt |
| Osv.ReportRows | task2/src/logics/osv_service.py:137-171 | the loop builds one row per item: all zeros with the item's unit and the first matching warehouse when no movement matches, else the first movement's warehouse, its base unit and the three sums |
| Osv.RowFor | task2/src/logics/osv_service.py:137-171 | definition, no contract; properties in OsvProofs.RowClosing and OsvProofs.RowWarehouseMatches: one catalogue item's row, its closing being everything moved up to the end date |
| Osv.Report | task2/src/logics/osv_service.py:137-171 | definition, no contract; properties in Osv.ReportRows and Osv.ReportItemsNamed: one row per catalogue item, in catalogue order |
| Osv.BaseUnit | task2/src/logics/osv_service.py:162 | definition, no contract and no lemma: the unit a row is reported in is the first relevant movement unit's base, or that unit when it has none |
| Osv.SumOfNone | task2/src/logics/osv_service.py:158-160 | a sum selecting no movement is zero |
| Osv.Total | task2/src/logics/osv_service.py:158-160 | `sum(...)` has the value of the base-quantity sum of the selected movements; it is the `int` 0 exactly when no movement is selected, and a `float` otherwise (quantities are stored as floats) |
| Osv.OpeningAmount | task2/src/logics/osv_service.py:158 | the stored opening has the value of the opening balance before the start date |
| Osv.IncomingAmount | task2/src/logics/osv_service.py:159 | the stored receipts have the value of the period's receipts |
| Osv.OutgoingAmount | task2/src/logics/osv_service.py:160 | the stored issues have the value of the period's issues as a positive amount |
| Osv.QuietPeriodIsIntZero | task2/src/logics/osv_service.py:159-160 | with no movement dated in the period, the stored receipts and issues are the `int` 0, whose `str` is "0", not "0.0" |
| Osv.EntriesOf | task2/src/logics/osv_service.py:40-51 | the loop builds one snapshot entry per statement row, in order, from the row's ids and closing and the block date |
| Osv.RebuildRows | task2/src/logics/osv_service.py:189-206 | the loop rebuilds the kept tables in order |
| Osv.OsvCalculator.constructor | task2/src/logics/osv_service.py:20-23 | the calculator and its prototype share the repository |
| Osv.OsvCalculator.ComputeOsv | task2/src/logics/osv_service.py:25-30 | `compute_osv` is the statement of a cloned prototype |
| Osv.OsvCalculator.ComputeTurnoversUntilBlock | task2/src/logics/osv_service.py:32-55 | the snapshot is one entry per statement row from 1900-01-01 to the block date (ids, closing, the block date); it is saved and nothing else in the repository changes |
| Osv.OsvCalculator.ComputeBalancesAt | task2/src/logics/osv_service.py:57-108 | without a block date the closings of the statement up to the target; otherwise the saved snapshot (computed and saved when missing), read directly for a target on or before the block, or with the later movements up to the target added under their keys |
| Osv.Snapshot | task2/src/logics/osv_service.py:37-51 | definition, no contract; properties in BalanceProofs.SnapshotEntryAt and BalanceProofs.SnapshotIsDirect: one entry per item with ids, closing and block date |
| Osv.BalancesAt | task2/src/logics/osv_service.py:57-108 | definition, no contract; properties in BalanceProofs.BalancesAfterBlockDate, BalanceProofs.BlockDateIndependence, OsvFindings.SnapshotBranchIgnoresTarget and OsvFindings.BalancesWithoutBlock: the three branches of `compute_balances_at` |
| Osv.FromSnapshot | task2/src/logics/osv_service.py:88-91 | definition, no contract; properties in BalanceProofs.FromSnapshotDistinct: the dict comprehension keyed by ids |
| Osv.Replay | task2/src/logics/osv_service.py:96-99 | definition, no contract; properties in BalanceProofs.ReplayStep, BalanceProofs.ReplaySums and BalanceProofs.DirectReplay: the movements after the block added in turn |
| Osv.AddMovement | task2/src/logics/osv_service.py:97-99 | definition, no contract; properties in BalanceProofs.AddMovementAt and BalanceProofs.ForeignMovementAdds: one movement's base quantity added under its key, 0.0 for a new key |
| Osv.TxKey | task2/src/logics/osv_service.py:97 | definition, no contract; properties in BalanceProofs.KeyIffItem and BalanceProofs.MixedUnitsBreakIndependence: the key holds the warehouse id, the item id and the raw unit id |
| Osv.ClosingBalances | task2/src/logics/osv_service.py:64-73 | without a block date, one balance per statement row, in order, holding the row's warehouse, item, unit and closing amount |
| Osv.SnapshotBalances | task2/src/logics/osv_service.py:79-86 | one balance per snapshot entry with the objects looked up by id and the entry's closing |
| Osv.MapFromSnapshot | task2/src/logics/osv_service.py:88-91 | the loop builds the dict comprehension over the snapshot |
| Osv.ReplayMovements | task2/src/logics/osv_service.py:96-99 | the loop adds each movement's quantity in base units to its key, starting unseen keys at 0 |
| Osv.MapBalances | task2/src/logics/osv_service.py:101-108 | one balance per dict entry, in insertion order, with the objects looked up by id |
| OsvProofs.SumAppend | task2/src/logics/osv_service.py:158-160 | a sum over one more movement adds that movement's part |
| OsvProofs.SumSplit | task2/src/logics/osv_service.py:158-160 | sums split along a split of the condition |
| OsvProofs.SumSame | task2/src/logics/osv_service.py:158-160 | conditions agreeing on every movement give the same sum |
| OsvProofs.SumWhere | task2/src/logics/osv_service.py:138-160 | summing over the relevant movements is summing over the ledger under both conditions |
| OsvProofs.RelevantWithoutWarehouse | task2/src/logics/osv_service.py:138-141 | with no warehouse asked for, every movement of the item is relevant |
| OsvProofs.ClosingIsBalanceAtEnd | task2/src/logics/osv_service.py:158-160 | opening plus receipts minus issues equals everything moved up to the end date, whatever the start date |
| OsvProofs.RowClosing | task2/src/logics/osv_service.py:143-171 | a row's closing is the base-unit sum of its item's matching movements dated up to the end date |
| OsvProofs.TurnoversNonNegative | task2/src/logics/osv_service.py:159-160 | with positive factors, receipts and issues are both non-negative |
| OsvProofs.RowWarehouseMatches | task2/src/logics/osv_service.py:143-171 | a row names its item, its warehouse (if any) matches the filter, and without matching movements it is all zeros |
| BalanceProofs.GetAt | task2/src/logics/osv_service.py:99 | in a dict with distinct keys, `get` of an entry's key gives that entry's value |
| BalanceProofs.PutAt | task2/src/logics/osv_service.py:99 | assigning an existing key changes that entry's value and nothing else |
| BalanceProofs.FromSnapshotDistinct | task2/src/logics/osv_service.py:88-91 | a snapshot with distinct keys becomes a dict listing its entries in order |
| BalanceProofs.AddMovementAt | task2/src/logics/osv_service.py:96-99 | a movement whose key is present adds its quantity to that entry only |
| BalanceProofs.SumLast | task2/src/logics/osv_service.py:158-160 | a sum is the sum of all but the last movement plus the last one's part |
| BalanceProofs.ReplayStep | task2/src/logics/osv_service.py:96-99 | replaying one more movement keeps every entry equal to its start value plus its key's movements |
| BalanceProofs.ReplaySums | task2/src/logics/osv_service.py:96-99 | replaying movements whose keys are all present adds to each entry the sum of its key's movements, in place |
| BalanceProofs.SnapshotEntryAt | task2/src/logics/osv_service.py:38-51 | the snapshot has one entry per item, under the item's row key, holding everything moved up to the block date |
| BalanceProofs.KeyIffItem | task2/src/logics/osv_service.py:45-47 | under one warehouse and one base-less unit per item, a movement carries an item's snapshot key exactly when it is a movement of that item |
| BalanceProofs.Direct | task2/src/logics/osv_service.py:64-73 | the dict computed directly at a date has one entry per item |
| BalanceProofs.ItemAfterBlock | task2/src/logics/osv_service.py:93-99 | one item's closing at the block date plus its movements after it is its closing at the target |
| BalanceProofs.SnapshotIsDirect | task2/src/logics/osv_service.py:38-51 | the dict built from the snapshot is the dict computed directly at the block date |
| BalanceProofs.KeysPresent | task2/src/logics/osv_service.py:97-99 | every movement's key already has an entry, so the replay never appends |
| BalanceProofs.ReplayedEntry | task2/src/logics/osv_service.py:96-99 | a replayed entry is fixed by its start value and its key's movements |
| BalanceProofs.DirectReplay | task2/src/logics/osv_service.py:93-99 | replaying the later movements on the direct dict at the block date gives the direct dict at the target |
| BalanceProofs.AfterBlockIsDirect | task2/src/logics/osv_service.py:75-99 | after the block date, the snapshot plus the replay is the direct computation at the target |
| BalanceProofs.BlockDateIndependence | task2/tst/test_block_period.py:135-157 | for a target after both, the balances with block date b1 and with b2 are equal (under the preconditions) |
| BalanceProofs.BalancesAfterBlockDate | task2/src/logics/osv_service.py:88-108 | after the block date there is one balance per item, holding everything moved up to the target |
| BalanceProofs.WhereOfTwo | task2/src/logics/osv_service.py:94 | selecting from two movements keeps those that pass, in order |
| BalanceProofs.SingleEntryMap | task2/src/logics/osv_service.py:88-91 | a one-entry snapshot becomes a one-entry dict |
| BalanceProofs.ForeignMovementAdds | task2/src/logics/osv_service.py:99 | a movement under a key the dict lacks adds a second entry |
| BalanceProofs.MixedUnitsBreakIndependence | task2/src/logics/osv_service.py:45-47 | without the one-unit condition the result depends on the block date: one item moved in two base-less units gives two balances with the earlier block date and one with the later |
| OsvFindings.SnapshotBranchIgnoresTarget | task2/src/logics/osv_service.py:79-86 | as written, a target on or before the block date gets everything moved up to the block date |
| OsvFindings.LaterReceiptCountedBeforeBlock | task2/src/logics/osv_service.py:79-86 | a receipt dated on the block date is reported in the balance of the day before |
| OsvFindings.BalancesWithoutBlock | task2/src/logics/osv_service.py:64-73 | with no block date there is one balance per item, holding everything moved up to the target |
| OsvFindings.CorrectedBalancesAtTarget | task2/src/logics/osv_service.py:57-108 | read as the balance at the target date, the calculation gives, for every target and block date, one balance per item holding everything moved up to the target |
| OsvFindings.FilteredStatementRaises | task2/src/logics/osv_service.py:177 | as written, the filter path raises `AttributeError` for any non-empty statement |
| OsvFindings.SourceDictsLoseWarehouseAndUnit | task2/src/logics/osv_service.py:176-197 | with the source's `to_dict` tables (no `id`) and any item section holding an `id`, so that the item lookup at line 192 does not raise first, every rebuilt row loses its warehouse and unit |
| OsvFindings.WarehouseSectionId | task2/src/logics/osv_service.py:191 | the warehouse table with an id gives back that id, and none without a warehouse |
| OsvFindings.UnitSectionId | task2/src/logics/osv_service.py:193 | the unit table with an id gives back that id, and none without a unit |
| OsvFindings.RebuildProject | task2/src/logics/osv_service.py:174-206 | with ids in the tables, rebuilding a row's table gives the row back |
| OsvFindings.KeptTables | task2/src/logics/osv_service.py:173-187 | the kept tables are exactly the tables passing every filter, and no more than the rows |
| OsvFindings.RebuiltRowsComeFromRows | task2/src/logics/osv_service.py:187-208 | every rebuilt row is a statement row whose table passes the filters |
| OsvFindings.PassingRowsAreRebuilt | task2/src/logics/osv_service.py:187-208 | every statement row whose table passes the filters is rebuilt |
| OsvFindings.FilteredRowsAreStatementRows | task2/src/logics/osv_service.py:173-208 | with ids in the tables, the filtered statement is exactly the statement rows whose tables pass, in statement order, and no more rows than the unfiltered one |
| OsvFindings.PassingRowsProperties | task2/src/logics/osv_service.py:173-208 | the passing rows are a subsequence of the statement, in its order, and a row is among them exactly when it is a statement row whose table passes the filters |
| OsvFindings.PassingRowsOrder | task2/src/logics/osv_service.py:173-208 | the passing rows keep the statement's order: they are a subsequence of it |
| OsvFindings.PassingRowsMembership | task2/src/logics/osv_service.py:173-208 | a row passes exactly when it is a statement row whose table passes every filter |
| OsvFindings.KeptSnoc | task2/src/logics/osv_service.py:174-187 | keeping the tables of one more row adds that row's table at the end when it passes, and nothing otherwise |
| OsvFindings.RebuildTail | task2/src/logics/osv_service.py:189-206 | that one-table tail rebuilds to the row itself when its table passes |
| OsvFindings.RebuildKept | task2/src/logics/osv_service.py:173-208 | rebuilding the kept tables gives exactly the passing rows, in statement order |
| Convertors.BasicConvert | task2/src/core/convertors.py:23-27 | `basic_convertor` returns exactly ints (bools included), floats and `str` instances (strings and `str`-derived enum members) unchanged; anything else raises `TypeError` |
| Convertors.DateTimeConvert | task2/src/core/convertors.py:34-38 | `datetime_convertor` accepts exactly datetimes and returns a string; anything else raises `TypeError` |
| Convertors.ReferenceConvert | task2/src/core/convertors.py:44-51 | `reference_convertor` accepts exactly objects having both `code` and `name`, and returns a two-entry dict; anything else raises `TypeError` |
| Convertors.ReferenceDict | task2/src/core/convertors.py:47-50 | that dict has exactly the keys "code" and "name", holding the object's code and name |
| Convertors.DigitCount | task2/src/core/convertors.py:37 | a number below 10^w is written with at most w digits |
| Convertors.PadShape | task2/src/core/convertors.py:37 | a zero-padded field of a number below 10^w is exactly w decimal digits |
| Convertors.StampShape | task2/src/core/convertors.py:37 | fields of widths 4, 2, 2, 2, 2, 2 join into a 19-character stamp with the separators in place |
| Convertors.IsoFormatShape | task2/src/core/convertors.py:35-37 | the ISO text of a datetime is `YYYY-MM-DDTHH:MM:SS`, its first ten characters being the zero-padded date |
| ConvertFactory.PreferredPresent | task2/src/logics/convert_factory.py:56-58 | the first pass takes only preferred keys the dict has, each with its own value |
| ConvertFactory.Others | task2/src/logics/convert_factory.py:60-62 | the second pass takes only entries of the dict whose key is not preferred |
| ConvertFactory.SortKeys | task2/src/logics/convert_factory.py:50-64 | the two loops build the preferred keys present, in preferred order, followed by the other entries in their original order |
| ConvertFactory.SeenKeys | task2/src/logics/convert_factory.py:60-61 | during the second pass, a key is already in the ordered dict exactly when it is a preferred key |
| ConvertFactory.PreferredPresentHas | task2/src/logics/convert_factory.py:56-58 | every preferred key the dict has is taken, with its value |
| ConvertFactory.PreferredPresentDistinct | task2/src/logics/convert_factory.py:56-58 | the first pass repeats no key |
| ConvertFactory.OthersHas | task2/src/logics/convert_factory.py:60-62 | every entry whose key is not preferred is taken |
| ConvertFactory.OthersDistinct | task2/src/logics/convert_factory.py:60-62 | the second pass repeats no key |
| ConvertFactory.SortedKeysEntries | task2/src/logics/convert_factory.py:50-64 | `_sort_keys` returns exactly the entries it was given |
| ConvertFactory.SortedKeysDistinct | task2/src/logics/convert_factory.py:50-64 | its result repeats no key and lists every preferred key before every other key |
| ConvertFactory.SortedKeysSameEntries | task2/src/logics/convert_factory.py:50-64 | `_sort_keys` is a reordering: same entries, same size, no repeated key, preferred keys first |
| ConvertFactory.SortedKeysLookup | task2/src/logics/convert_factory.py:50-64 | every key maps to the same value before and after ordering |
| ConvertFactory.SortedKeysIdempotent | task2/src/logics/convert_factory.py:50-64 | ordering an ordered dict again changes nothing |
| ConvertFactory.Convert | task2/src/logics/convert_factory.py:23-48 | None gives None; numbers, bools and `str` instances (a `str`-derived enum member included) come back unchanged; a datetime gives a string; a list gives a list of the same length; a dict gives a dict; any other object, or an enum member not derived from `str`, converts exactly when it has `code` and `name`, and such an enum member always raises; every failure is `TypeError` |
| ConvertFactory.SortReference | task2/src/logics/convert_factory.py:40-42 | an object converts exactly when the reference converter accepts it, and then to a dict; otherwise the converter's error |
| ConvertFactory.ConvertCollection | task2/src/logics/convert_factory.py:66-67 | succeeds exactly when every item converts, giving the converted items in order; otherwise the first failing item's error |
| ConvertFactory.ConvertList | task2/src/logics/convert_factory.py:33-34 | converting a list is converting it as a collection |
| ConvertFactory.ConvertDict | task2/src/logics/convert_factory.py:36-38 | a converted dict has the same keys, each with its converted value, no repeated key, preferred keys first |
| ConvertFactory.DictParts | task2/src/logics/convert_factory.py:36-38 | a dict converts its values in order; the first raise is the result, and otherwise the keys are kept with their converted values, in the preferred order |
| ConvertFactory.RekeyDistinct | task2/src/logics/convert_factory.py:36-38 | replacing the values keeps the keys, so a dict without repeated keys keeps none |
| ConvertFactory.RekeyLookup | task2/src/logics/convert_factory.py:37 | the comprehension keeps every key and puts the converted value under it |
| ConvertFactory.PairSorted | task2/src/logics/convert_factory.py:50-64 | two preferred keys already in preferred order stay as they are |
| ConvertFactory.PreferredOrderDistinct | task2/src/logics/convert_factory.py:18-21 | the preferred order repeats no key and starts with "code", with "name" third |
| ConvertFactory.ConvertReference | task2/src/logics/convert_factory.py:40-42 | an object with a code and a name converts to exactly `{"code": ..., "name": ...}` |
| ConvertFactory.ObjectConverted | task2/src/logics/convert_factory.py:40-42 | an accepted object converts to the reference dict with its keys ordered |
| ConvertFactory.FactoryConvertReference | task2/tst/test_convertors.py:74-83 | with the factory's own order a reference converts to its code, then its name |
| ConvertFactory.ListFixed | task2/src/logics/convert_factory.py:33-34 | a list of values that convert to themselves converts to itself |
| ConvertFactory.DictFixed | task2/src/logics/convert_factory.py:36-38 | an ordered dict of values that convert to themselves converts to itself |
| ConvertFactory.ConvertStable | task2/src/logics/convert_factory.py:23-48 | a JSON-shaped value (no objects, no repeated keys) converts, and converting the result again changes nothing |
| ConvertFactory.DictStable | task2/src/logics/convert_factory.py:36-38 | a dict whose values are stable under conversion converts, and converting the result again changes nothing |
| Markdown.Keys | task2/src/logics/response_md.py:10 | the headers are the first row's keys, in order |
| Markdown.Dashes | task2/src/logics/response_md.py:12 | one "---" per header |
| Markdown.Gets | task2/src/logics/response_md.py:14 | one look-up `row[h]` per header, in header order |
| Markdown.Texts | task2/src/logics/response_md.py:14 | one `str` text per value, in order |
| Markdown.RowResults | task2/src/logics/response_md.py:13-14 | one line outcome per row, in order |
| Markdown.RowLine | task2/src/logics/response_md.py:14 | the loop computes one row's line, or the `KeyError` of the first header the row lacks |
| Markdown.Render | task2/src/logics/response_md.py:7-15 | `create_response` returns the table of the rows with Python's `str`: "" for no rows, otherwise header line, separator line and one line per row, or the first `KeyError` |
| Markdown.AppendRows | task2/src/logics/response_md.py:13-14 | appending the rows' lines to the header text, or the first failing row's error |
| Markdown.ConcatAppend | task2/src/logics/response_md.py:13-14 | joining two lists of lines is joining each and concatenating |
| Markdown.LineShape | task2/src/logics/response_md.py:11 | every line starts with a bar and a space and ends with a space, a bar and a newline |
| Markdown.RowOk | task2/src/core/response_formatters.py:45 | a row's line exists exactly when the row has every header key |
| Markdown.CellTexts | task2/src/logics/response_md.py:14 | a complete row has one cell per header |
| Markdown.RowText | task2/src/logics/response_md.py:14 | a row's line is the line of its values under the headers, in header order |
| Markdown.MissingHeader | task2/src/logics/response_md.py:14 | a failing row names the first header it lacks in its `KeyError` |
| Markdown.RowError | task2/src/logics/response_md.py:14 | a failing row's error is `KeyError` for a header the row lacks, all earlier ones being present |
| Markdown.FailingRow | task2/src/logics/response_md.py:13-14 | a failing table fails at the first row whose line fails, all earlier rows succeeding |
| Markdown.RowLines | task2/src/logics/response_md.py:13-14 | one line per complete row |
| Markdown.TableOk | task2/src/core/response_formatters.py:37-45 | `format` succeeds on a non-empty list exactly when every row has all of the first row's keys |
| Markdown.TableError | task2/src/logics/response_md.py:7-15 | a failure is a `KeyError` for the first missing header of the first incomplete row |
| Markdown.TableLines | task2/src/core/response_formatters.py:40-45 | the table is the header line, the separator line and one line per row with its cells in header order |
| Markdown.TableLineShapes | task2/src/logics/response_md.py:11-15 | the table has two lines more than there are rows, each a well-formed table line |
| Markdown.TableIgnoresExtraKeys | task2/src/logics/response_md.py:14 | keys beyond the first row's do not affect the table |
| Markdown.TableOneRow | task2/src/logics/response_md.py:7-15 | a single row renders its keys, the separator and its values in order |
| Markdown.TableHeader | task2/src/logics/response_md.py:11 | the table starts with the header line of the first row's keys |
| Markdown.IdNameLine | task2/src/logics/response_md.py:11 | the headers id and name give the header line of exactly those two cells |
| Markdown.IdNameRenders | task2/tst/test_factory_entities.py:16-20 | two id/name rows render |
| Markdown.HeaderExample | task2/tst/test_factory_entities.py:16-20 | the table of two id/name rows starts with the header line of id and name, as the test expects |

## Left out

- Osv.OsvCalculator.ComputeBalancesAt: the block date is a parameter. The source reads it from `settings_manager.get_block_period()`, which is not part of this model. None stands for "no block date".
- Osv.OsvPrototype.Generate: requires every filter's `field_name` to be a string. With another value, the source fails in `split` with an `AttributeError`, and that path is not modelled. The same holds for Osv.OsvCalculator.ComputeOsv, FilterUtils.FilterObjects, FilterUtils.SelectPass, FilterEngine.Filter and FilterEngine.Match.
- Osv.OsvPrototype.Generate: models the filter path as corrected under "Findings", with an `id` in every table section. The code as written is modelled by Osv.ProjectAsWritten and Osv.ProjectWithSourceDicts.
- Osv.RebuildAll: is defined only for tables that are Osv.Rebuildable: an item section holding an `id`, and warehouse and unit sections that are dicts where present. On other tables the source raises `KeyError` (osv_service.py:192) or `AttributeError` (osv_service.py:191, 193), and those raises are not modelled. Every table the engine projects is rebuildable (Osv.ProjectedRebuildable), and filtering keeps that (Osv.NarrowKeepsRebuildable). Ids are compared as integers, so a float or bool id that Python would find equal to an integer id finds nothing here.
- Text.Lower, Text.Upper and Text.IsDigits: the case mappings cover only ASCII letters and the basic Cyrillic block (U+0400 to U+045F). The digit test accepts only 0-9. Python's `str.lower`, `str.upper` and `str.isdigit` cover all of Unicode. The members below inherit this narrowing.
- Warehouses.GenerateCode: upper-cases the first three characters one character at a time. For a character whose Python upper-case is longer (`'ß'` gives `"SS"`), the source's code is longer than three characters, so `|c| <= 3` and the code itself hold only for names without such characters.
- Organizations.CheckedDigits: refuses digits outside 0-9 (Arabic-Indic digits, for example), which `isdigit()` at organization_model.py:68, 80, 92 and 104 accepts.
- Organizations.Organization.SetInn: inherits the 0-9 digit test of Organizations.CheckedDigits.
- Organizations.Organization.SetAccount: inherits the 0-9 digit test of Organizations.CheckedDigits.
- Organizations.Organization.SetCorrAccount: inherits the 0-9 digit test of Organizations.CheckedDigits.
- Organizations.Organization.SetBik: inherits the 0-9 digit test of Organizations.CheckedDigits.
- FilterDtos.FromDict: resolves the type name through the narrowed Text.Upper, so a name Python upper-cases to "LIKE" or "EQUALS" only outside those ranges (`"lıke"`, with a dotless i) is refused here and accepted by the source.
- FilterUtils.FilterObjects: compares through the narrowed Text.Lower, so text with letters outside ASCII and basic Cyrillic (accented Latin, for example) can match differently than in the source.
- FilterEngine.Match: compares through the same narrowed Text.Lower as FilterUtils.FilterObjects.
- Osv.WarehouseMatch: compares warehouse names and codes through the same narrowed Text.Lower, so a warehouse named "ÉTAGE" does not match the filter "é" here, while it does in the source. Osv.OsvPrototype.Generate and the statement lemmas inherit this.
- Values.GetAttr: gives the data attributes of model objects, datetimes, numbers and enum members. Methods, properties computed by code, dunder attributes and attributes of other built-in types are not modelled; a path through them resolves to None here. FilterUtils.GetNestedValue and FilterEngine.GetNested inherit this.
- Values.IsInstance: a member of an enum deriving from `str` is a `str` instance. Enums deriving from `int` or `float` (such as `IntEnum`) are not modelled, and the core defines none.
- Values.StrRepr: escapes the backslash, the quote, `\n`, `\r`, `\t` and the other ASCII control characters. Python also escapes non-printable characters beyond ASCII (`\x`, `\u`, `\U`); those are kept as they are here.
- FilterParser.ParseItem: looks a `str`-derived enum member up by its text, as Python's `str` hashing and equality do. The operator enum is taken to have values equal to its names, because filters_enum.py is not part of this model.
- Exception messages: the model keeps the exception class of every refusal, but its messages are short English descriptions, not the source's Russian texts, and they do not carry the offending value (the rejected filter type, for example). No property depends on a message, except Validator.Wrap, which passes a message through unchanged.
- Osv.Rebuild: a stored amount that is not a number is read back as 0.0, and a bool as the `int` 0 or 1 (whose `str` is "1", not "True"). The source would keep whatever value the table holds. Tables built by the engine always hold an `int` or a `float` (Osv.TableAmounts).
- BalanceProofs.BlockDateIndependence: holds only under three conditions: consistent catalogue ids, one warehouse per item, and one base-less unit per item. BalanceProofs.MixedUnitsBreakIndependence shows the unit condition is needed. The lemmas about snapshots also assume the block date is not before 1899-12-31 (`Day0 <= block + 1`).
- Markdown.Render: Python's `str` of a float is rendered in positional notation with up to 16 fraction digits. Python's shortest round-trip form and its exponent notation are not modelled. The other Markdown members take `str` as a parameter, so their properties hold for any rendering of cells.
- Convertors.DateTimeConvert: promises only that a datetime gives a string. Its shape is proved separately (Convertors.IsoFormatShape) for fields within their widths. Microseconds and time zones are not modelled.
- Units.ToBase: takes a number only. For any other value the source's `(int, float)` check raises `AttributeError` (Validator.NumberTupleCheck), which is not modelled. It has no contract of its own. Its properties are the lemmas Units.RoundTrip, Units.ToBaseIgnoresBase, Units.FactorOneIsIdentity and Units.ToBasePreservesSign.
- References.Reference.Equals: `__eq__` is the predicate itself (two references are equal exactly when their codes are), with no further contract.
- Unique codes: `uuid.uuid4().hex` is random, so a new reference takes its code as a parameter. That freshly built objects get distinct codes is not modelled.
- Floating point is modelled as `real`. Rounding is not modelled; the quantities involved are small integers. A statement amount records whether Python holds it as an `int` or a `float` (OsvRows.Amount), so its `str` is "0" or "0.0" as in the source. Snapshot closings and computed balances keep only the value, because nothing in the core prints them.
- Dates are day numbers, and every movement has a date and a unit. The source skips a movement without a date (osv_service.py:94), and `generate` would fail on a movement without a unit.
- Dictionaries are sequences of string-keyed entries. Python dicts never repeat a key, and the lemmas that need this state it (`DistinctKeys`).
- The convert factory's `_registry` lookups are direct calls, and `_preferred_order` is the parameter `pref`, with the factory's own list `ConvertFactory.PreferredOrder`.
- The `__dict__` and `str(obj)` fallbacks of `convert` (convert_factory.py:44-48) are unreachable: every object has `__class__`. Enum members whose class does not derive from `str`, and all other objects, therefore take the reference path. A member of a `str`-derived enum is a `str` instance and is returned unchanged.
- The "neither EQUALS nor LIKE" branches of `filter_objects` and `match` are unreachable: the operator is a `FilterType` member, and both members are modelled. `filter_objects` compares the member with the strings "EQUALS" and "LIKE". The model takes `FilterType` to be a string-valued enum, as its use in the tests requires. filters_enum.py is not part of this model.
- The case-insensitive key loop of `get_nested_value` (filter_utils.py:26-33) is unreachable, because dicts are handled earlier; it is not modelled.
- `osv_service.py` imports `FilterUtils` from filter_utils.py (osv_service.py:9), which defines no such name, so importing the module fails with `ImportError` before any of it runs; line 187 then calls `FilterUtils.apply`, which does not exist either. The model takes the module as importable and uses `filter_objects` in place of `apply`.
- The repository's warehouses, movements, look-ups by id and snapshot slot are not defined in storage_repository.py. They are modelled after the engine's calls.
- The JSON, XML and CSV formatters, the settings managers, the service start-up and the HTTP layer are not part of this model.

## Findings

| source | as written | input that shows it | evidently intended | confidence | as-written member | corrected member |
|---|---|---|---|---|---|---|
| task2/src/logics/osv_service.py:79-86 | for a target date on or before the block date, the snapshot's closing balances at the block date are returned, whatever the target | one receipt of 1 kg dated on the block date, balances asked for the day before: the balance reported is 1 | a design question rather than a clear defect: the test task2/tst/test_block_period.py:93-111 says the snapshot is used for an earlier target, but its movements all precede that target, so it does not separate this reading from the balance at the target date, which the corrected member computes | low; not executed | OsvFindings.LaterReceiptCountedBeforeBlock | OsvFindings.CorrectedBalancesAtTarget |
| task2/src/logics/osv_service.py:177 | the filter path calls `r.item.to_dict()`, but `nomenclature_model` defines no `to_dict` | any non-empty catalogue with a non-empty filter list: `AttributeError` | the item's table section, holding its `id` and name | high; not executed | OsvFindings.FilteredStatementRaises | OsvFindings.FilteredRowsAreStatementRows |
| task2/src/logics/osv_service.py:191-197 | the rebuild step reads `id` from the warehouse and unit sections, which `to_dict` fills without an `id` | any row with a warehouse and a unit that a filter keeps: rebuilt with warehouse None and unit None | the rebuilt row equals the original row | high; not executed | OsvFindings.SourceDictsLoseWarehouseAndUnit | OsvFindings.RebuildProject |
