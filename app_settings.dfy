/** The organisation settings record with six validating setters,
    src/models/settings.py. */
module AppSettings {
  import opened Results
  import opened Text

  /** What each setter demands of its raw value. */
  predicate ValidInn(v: string) { |v| == 12 }
  predicate ValidAccount(v: string) { |v| == 11 }
  predicate ValidBik(v: string) { |v| == 9 }
  predicate ValidName(v: string) { Strip(v) != "" }
  predicate ValidOwnership(v: string) { |v| == 5 }

  class Settings {
    var name: string
    var inn: string
    var account: string
    var corrAccount: string
    var bik: string
    var ownership: string

    /** The object before its constructor's first assignment. */
    constructor Blank()
      ensures name == "" && inn == "" && account == "" && corrAccount == "" && bik == "" && ownership == ""
    {
      name, inn, account, corrAccount, bik, ownership := "", "", "", "", "", "";
    }

    method SetInn(value: string) returns (err: Option<Exc>)
      modifies this
      ensures err.None? <==> ValidInn(value)
      ensures err.Some? ==> err.value.kind == ValueError
      ensures inn == (if err.None? then value else old(inn))
      ensures name == old(name) && account == old(account) && corrAccount == old(corrAccount)
      ensures bik == old(bik) && ownership == old(ownership)
    {
      if !ValidInn(value) {
        return Some(Exc(ValueError, "INN must have 12 characters"));
      }
      inn := value;
      err := None;
    }

    method SetAccount(value: string) returns (err: Option<Exc>)
      modifies this
      ensures err.None? <==> ValidAccount(value)
      ensures err.Some? ==> err.value.kind == ValueError
      ensures account == (if err.None? then value else old(account))
      ensures name == old(name) && inn == old(inn) && corrAccount == old(corrAccount)
      ensures bik == old(bik) && ownership == old(ownership)
    {
      if !ValidAccount(value) {
        return Some(Exc(ValueError, "account must have 11 characters"));
      }
      account := value;
      err := None;
    }

    method SetCorrAccount(value: string) returns (err: Option<Exc>)
      modifies this
      ensures err.None? <==> ValidAccount(value)
      ensures err.Some? ==> err.value.kind == ValueError
      ensures corrAccount == (if err.None? then value else old(corrAccount))
      ensures name == old(name) && inn == old(inn) && account == old(account)
      ensures bik == old(bik) && ownership == old(ownership)
    {
      if !ValidAccount(value) {
        return Some(Exc(ValueError, "correspondent account must have 11 characters"));
      }
      corrAccount := value;
      err := None;
    }

    method SetBik(value: string) returns (err: Option<Exc>)
      modifies this
      ensures err.None? <==> ValidBik(value)
      ensures err.Some? ==> err.value.kind == ValueError
      ensures bik == (if err.None? then value else old(bik))
      ensures name == old(name) && inn == old(inn) && account == old(account)
      ensures corrAccount == old(corrAccount) && ownership == old(ownership)
    {
      if !ValidBik(value) {
        return Some(Exc(ValueError, "BIK must have 9 characters"));
      }
      bik := value;
      err := None;
    }

    /** The name is the one field stored stripped. */
    method SetName(value: string) returns (err: Option<Exc>)
      modifies this
      ensures err.None? <==> ValidName(value)
      ensures err.Some? ==> err.value.kind == ValueError
      ensures name == (if err.None? then Strip(value) else old(name))
      ensures inn == old(inn) && account == old(account) && corrAccount == old(corrAccount)
      ensures bik == old(bik) && ownership == old(ownership)
    {
      if !ValidName(value) {
        return Some(Exc(ValueError, "name must not be empty"));
      }
      name := Strip(value);
      err := None;
    }

    /** The ownership form must be exactly 5 characters and is stored as given. */
    method SetOwnership(value: string) returns (err: Option<Exc>)
      modifies this
      ensures err.None? <==> ValidOwnership(value)
      ensures err.Some? ==> err.value.kind == ValueError
      ensures ownership == (if err.None? then value else old(ownership))
      ensures name == old(name) && inn == old(inn) && account == old(account)
      ensures corrAccount == old(corrAccount) && bik == old(bik)
    {
      if !ValidOwnership(value) {
        return Some(Exc(ValueError, "ownership must have 5 characters"));
      }
      ownership := value;
      err := None;
    }
  }

  /** `Settings(name, inn, account, corr_account, bik, ownership)`: the six
      setters run in that order and the first refusal is raised. */
  method NewSettings(name: string, inn: string, account: string, corrAccount: string,
                     bik: string, ownership: string) returns (r: Result<Settings>)
    ensures r.Ok? <==> ValidName(name) && ValidInn(inn) && ValidAccount(account) &&
                       ValidAccount(corrAccount) && ValidBik(bik) && ValidOwnership(ownership)
    ensures r.Raise? ==> r.error.kind == ValueError
    ensures r.Ok? ==> fresh(r.value) && r.value.name == Strip(name) && r.value.inn == inn &&
                      r.value.account == account && r.value.corrAccount == corrAccount &&
                      r.value.bik == bik && r.value.ownership == ownership
  {
    var s := new Settings.Blank();
    var err := s.SetName(name);
    if err.Some? { return Raise(err.value); }
    err := s.SetInn(inn);
    if err.Some? { return Raise(err.value); }
    err := s.SetAccount(account);
    if err.Some? { return Raise(err.value); }
    err := s.SetCorrAccount(corrAccount);
    if err.Some? { return Raise(err.value); }
    err := s.SetBik(bik);
    if err.Some? { return Raise(err.value); }
    err := s.SetOwnership(ownership);
    if err.Some? { return Raise(err.value); }
    r := Ok(s);
  }
}
