/** The organisation reference with its bank details,
    task2/src/models/organization_model.py. */
module Organizations {
  import opened Results
  import opened Text
  import opened Values
  import opened Validator
  import opened References
  import opened Companies

  const InnDigits: int := 12
  const AccountDigits: int := 11
  const BikDigits: int := 9
  const OwnershipLimit: int := 50

  /** A string of ASCII digits never starts or ends with white space. */
  lemma DigitsAreStripped(s: string)
    requires IsDigits(s)
    ensures Strip(s) == s
  {
    StripUnchanged(s);
  }

  /** A string of ASCII digits passes the plain string check. */
  lemma DigitsPassValidate(s: string)
    requires IsDigits(s)
    ensures Validate(Str(s), Class(StrType), None).Ok?
  {
    assert exists k :: 0 <= k < |s| && !IsSpace(s[k]) by {
      assert '0' <= s[0] <= '9';
      assert !IsSpace(s[0]);
    }
    ValidateString(s, None);
  }

  /** The check shared by the `inn`, `account`, `corr_account` and `bik`
      setters: a non-blank string made of exactly `n` digits. What is stored is
      the stripped value, which for digits is the value itself. */
  function CheckedDigits(value: string, n: int): (r: Result<string>)
    ensures r.Ok? <==> IsDigits(value) && |value| == n
    ensures r.Ok? ==> r.value == value
    ensures r.Raise? ==> r.error.kind == ArgumentException
  {
    match Validate(Str(value), Class(StrType), None)
    case Raise(e) =>
      assert !IsDigits(value) by {
        if IsDigits(value) {
          DigitsPassValidate(value);
        }
      }
      Raise(e)
    case Ok(_) =>
      if !IsDigits(value) || |value| != n then Fail(ArgumentException, "wrong number of digits")
      else
        DigitsAreStripped(value);
        Ok(Strip(value))
  }

  /** The `ownership` setter's check: non-blank and at most 50 characters once
      stripped; the stripped value is stored. */
  function CheckedOwnership(value: string): (r: Result<string>)
    ensures r.Ok? <==> Strip(value) != [] && |Strip(value)| <= OwnershipLimit
    ensures r.Ok? ==> r.value == Strip(value)
    ensures r.Raise? ==> r.error.kind == ArgumentException
  {
    assert IsInstanceOf(Str(value), Class(StrType));
    match Validate(Str(value), Class(StrType), None)
    case Raise(e) => Raise(e)
    case Ok(_) =>
      if |Strip(value)| > OwnershipLimit then Fail(ArgumentException, "ownership is too long")
      else Ok(Strip(value))
  }

  /** A tax number padded with a space is refused, though the setter strips
      what it stores: the digit check runs on the raw value. */
  lemma PaddedInnRefused()
    ensures CheckedDigits(" 12345678901", InnDigits).Raise?
  {
    assert !IsDigits(" 12345678901") by {
      assert " 12345678901"[0] == ' ';
    }
  }

  /** `organization_model`: the reference part and five bank details, "" by default. */
  class Organization {
    const ref: Reference
    var inn: string
    var bik: string
    var account: string
    var corrAccount: string
    var ownership: string

    constructor (ref: Reference)
      ensures this.ref == ref
      ensures inn == "" && bik == "" && account == "" && corrAccount == "" && ownership == ""
    {
      this.ref := ref;
      inn, bik, account, corrAccount, ownership := "", "", "", "", "";
    }

    method SetInn(value: string) returns (err: Option<Exc>)
      modifies this
      ensures err.None? <==> IsDigits(value) && |value| == InnDigits
      ensures err.Some? ==> err.value.kind == ArgumentException
      ensures inn == (if err.None? then value else old(inn))
      ensures unchanged(`bik, `account, `corrAccount, `ownership)
    {
      var checked := CheckedDigits(value, InnDigits);
      if checked.Ok? {
        inn := checked.value;
        err := None;
      } else {
        err := Some(checked.error);
      }
    }

    method SetAccount(value: string) returns (err: Option<Exc>)
      modifies this
      ensures err.None? <==> IsDigits(value) && |value| == AccountDigits
      ensures err.Some? ==> err.value.kind == ArgumentException
      ensures account == (if err.None? then value else old(account))
      ensures unchanged(`inn, `bik, `corrAccount, `ownership)
    {
      var checked := CheckedDigits(value, AccountDigits);
      if checked.Ok? {
        account := checked.value;
        err := None;
      } else {
        err := Some(checked.error);
      }
    }

    method SetCorrAccount(value: string) returns (err: Option<Exc>)
      modifies this
      ensures err.None? <==> IsDigits(value) && |value| == AccountDigits
      ensures err.Some? ==> err.value.kind == ArgumentException
      ensures corrAccount == (if err.None? then value else old(corrAccount))
      ensures unchanged(`inn, `bik, `account, `ownership)
    {
      var checked := CheckedDigits(value, AccountDigits);
      if checked.Ok? {
        corrAccount := checked.value;
        err := None;
      } else {
        err := Some(checked.error);
      }
    }

    method SetBik(value: string) returns (err: Option<Exc>)
      modifies this
      ensures err.None? <==> IsDigits(value) && |value| == BikDigits
      ensures err.Some? ==> err.value.kind == ArgumentException
      ensures bik == (if err.None? then value else old(bik))
      ensures unchanged(`inn, `account, `corrAccount, `ownership)
    {
      var checked := CheckedDigits(value, BikDigits);
      if checked.Ok? {
        bik := checked.value;
        err := None;
      } else {
        err := Some(checked.error);
      }
    }

    method SetOwnership(value: string) returns (err: Option<Exc>)
      modifies this
      ensures err.None? <==> CheckedOwnership(value).Ok?
      ensures err.Some? ==> err.value.kind == ArgumentException
      ensures ownership == (if err.None? then Strip(value) else old(ownership))
      ensures unchanged(`inn, `bik, `account, `corrAccount)
    {
      match CheckedOwnership(value)
      case Ok(v) => ownership := v; err := None;
      case Raise(e) => err := Some(e);
    }
  }

  /** The arguments after the optional copy from the settings' company: a
      `company_model` has only `name` and `inn`, so only those two replace the
      caller's values; the other `getattr` calls fall back to their defaults. */
  datatype Details = Details(name: string, inn: string, bik: string, account: string,
                             corrAccount: string, ownership: string)

  /** Every bank detail that is assigned (the non-empty ones) passes its setter. */
  predicate BankDetailsAccepted(d: Details)
  {
    && (d.inn == "" || (IsDigits(d.inn) && |d.inn| == InnDigits))
    && (d.bik == "" || (IsDigits(d.bik) && |d.bik| == BikDigits))
    && (d.account == "" || (IsDigits(d.account) && |d.account| == AccountDigits))
    && (d.corrAccount == "" || (IsDigits(d.corrAccount) && |d.corrAccount| == AccountDigits))
    && (d.ownership == "" || CheckedOwnership(d.ownership).Ok?)
  }

  /** The bank-detail part of the constructor: the non-empty details are
      assigned in the order inn, bik, account, corr_account, ownership, and
      the first refusal stops it. */
  method AssignBankDetails(o: Organization, d: Details) returns (err: Option<Exc>)
    requires o.inn == "" && o.bik == "" && o.account == "" && o.corrAccount == "" && o.ownership == ""
    modifies o
    ensures err.None? <==> BankDetailsAccepted(d)
    ensures err.Some? ==> err.value.kind == ArgumentException
    ensures err.None? ==> o.inn == d.inn && o.bik == d.bik && o.account == d.account &&
                          o.corrAccount == d.corrAccount &&
                          o.ownership == (if d.ownership == "" then "" else Strip(d.ownership))
  {
    err := None;
    if d.inn != "" {
      err := o.SetInn(d.inn);
      if err.Some? { return; }
    }
    if d.bik != "" {
      err := o.SetBik(d.bik);
      if err.Some? { return; }
    }
    if d.account != "" {
      err := o.SetAccount(d.account);
      if err.Some? { return; }
    }
    if d.corrAccount != "" {
      err := o.SetCorrAccount(d.corrAccount);
      if err.Some? { return; }
    }
    if d.ownership != "" {
      err := o.SetOwnership(d.ownership);
    }
  }

  /** `organization_model(name, inn, bik, account, corr_account, ownership, settings)`.
      A settings argument that is not a `settings_model`, or whose company is
      None, raises; otherwise the company's name and inn replace the given
      ones. The non-empty details are then assigned in the order inn, bik,
      account, corr_account, ownership, name, and the first refusal is raised.
      The base constructor runs last and assigns the same name again. */
  method NewOrganization(code: string, name: string, inn: string, bik: string, account: string,
                         corrAccount: string, ownership: string, settings: Arg<SettingsModel>)
    returns (r: Result<Organization>)
    ensures settings.Other? || (settings.Given? && settings.value.company.None?) ==>
              r.Raise? && r.error.kind == ArgumentException
    ensures settings.Absent? || (settings.Given? && settings.value.company.Some?) ==>
              var d := if settings.Given?
                       then Details(settings.value.company.value.name, settings.value.company.value.inn,
                                    bik, account, corrAccount, ownership)
                       else Details(name, inn, bik, account, corrAccount, ownership);
              && (r.Ok? <==> BankDetailsAccepted(d) && (d.name == "" || CheckedName(d.name).Ok?))
              && (r.Raise? ==> r.error.kind == ArgumentException)
              && (r.Ok? ==> fresh(r.value) && fresh(r.value.ref) &&
                            r.value.ref.uniqueCode == code &&
                            r.value.ref.name == (if d.name == "" then "" else Strip(d.name)) &&
                            r.value.inn == d.inn && r.value.bik == d.bik &&
                            r.value.account == d.account && r.value.corrAccount == d.corrAccount &&
                            r.value.ownership == (if d.ownership == "" then "" else Strip(d.ownership)))
  {
    var d := Details(name, inn, bik, account, corrAccount, ownership);
    match settings {
      case Other(_) =>
        return Fail(ArgumentException, "settings must be a settings_model");
      case Given(s) =>
        if s.company.None? {
          return Fail(ArgumentException, "settings.company is empty");
        }
        d := d.(name := s.company.value.name, inn := s.company.value.inn);
      case Absent =>
    }
    var ref := new Reference(code);
    var o := new Organization(ref);
    var err := AssignBankDetails(o, d);
    if err.Some? {
      return Raise(err.value);
    }
    if d.name != "" {
      err := ref.SetName(d.name);
      if err.Some? { return Raise(err.value); }
      err := ref.SetName(d.name);
    }
    r := Ok(o);
  }
}
