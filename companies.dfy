/** The company record, task2/src/models/company_model.py, and the settings
    record that holds it (task2/src/models/settings_model.py). */
module Companies {
  import opened Results
  import opened Text

  /** The length the `inn` setter demands of the raw value. */
  const InnLength: int := 12

  /** `company_model`: a name and a tax number, both "" by default. */
  class Company {
    var name: string
    var inn: string

    constructor ()
      ensures name == "" && inn == ""
    {
      name := "";
      inn := "";
    }

    /** The `name` setter: a blank value is ignored, anything else is stored stripped. */
    method SetName(value: string)
      modifies this
      ensures name == (if Strip(value) == "" then old(name) else Strip(value))
      ensures inn == old(inn)
    {
      if Strip(value) != "" {
        name := Strip(value);
      }
    }

    /** The `inn` setter: the raw value must be 12 characters long (no digit
        check); it is stored stripped, otherwise `ValueError`. */
    method SetInn(value: string) returns (err: Option<Exc>)
      modifies this
      ensures err.None? <==> |value| == InnLength
      ensures err.Some? ==> err.value.kind == ValueError
      ensures inn == (if err.None? then Strip(value) else old(inn))
      ensures name == old(name)
    {
      if |value| == InnLength {
        inn := Strip(value);
        err := None;
      } else {
        err := Some(Exc(ValueError, "INN must have 12 characters"));
      }
    }
  }

  /** `settings_model`: the application settings, holding the current company. */
  datatype SettingsModel = SettingsModel(company: Option<Company>)
}
