/**
 * The casino's user account: field validation, the VIP flag derived from the
 * balance, ID generation from the initials, the in-memory effect of the
 * balance, stake and history updates, and the dictionary form of an account.
 * Persisting an update is not modelled; only the change to the object is.
 */
module Users {
  import opened Results

  /** One transaction-history record, a dictionary of text entries. */
  type Entry = map<string, string>

  /** The number drawn for a generated ID, three decimal digits. */
  type IdNumber = n: int | 100 <= n <= 999 witness 100

  /** The reasons a setter or a balance update raises `ValueError`. */
  datatype UserError =
    | InvalidName
    | InvalidSurname
    | InvalidEmail
    | InvalidPassword
    | NegativeBalance
    | NegativeTotalStaked
    | NonPositiveAmount
    | RejectedDecrease

  /** A balance of at least this much makes an account VIP when the balance is set. */
  const VipThreshold: real := 1000.0

  // ---------------------------------------------------------------------------
  // Validators
  // ---------------------------------------------------------------------------

  /** Accepted first names and surnames: non-empty, longer than 3 and shorter than 30. */
  predicate ValidName(s: string)
  {
    s != "" && 3 < |s| < 30
  }

  /** An accepted name has between 4 and 29 characters, and every such string is accepted. */
  lemma ValidNameLength(s: string)
    ensures ValidName(s) <==> 4 <= |s| <= 29
  {
  }

  /** Accepted e-mail addresses contain an '@' and a '.'. */
  predicate ValidEmail(s: string)
  {
    '@' in s && '.' in s
  }

  /** Accepted passwords have at least 3 characters. */
  predicate ValidPassword(s: string)
  {
    |s| >= 3
  }

  // ---------------------------------------------------------------------------
  // ID generation
  // ---------------------------------------------------------------------------

  /**
   * Upper-casing of one character over ASCII and Latin-1: 'a'..'z' and the
   * accented letters 'à'..'þ' (such as 'á' and 'ñ'), except '÷', move down by 32.
   */
  function UpperChar(c: char): char
  {
    if 'a' <= c <= 'z' || ('\U{E0}' <= c <= '\U{FE}' && c != '\U{F7}') then (c as int - 32) as char
    else c
  }

  /** The decimal digit character for `d`. */
  function DigitChar(d: int): char
    requires 0 <= d <= 9
  {
    ('0' as int + d) as char
  }

  /** Whether every character is a decimal digit. */
  predicate IsDigits(s: string)
  {
    forall i :: 0 <= i < |s| ==> '0' <= s[i] <= '9'
  }

  /** The number a string of decimal digits denotes. */
  function DecimalValue(s: string): (n: nat)
    requires IsDigits(s)
  {
    if s == [] then 0
    else DecimalValue(s[..|s| - 1]) * 10 + (s[|s| - 1] as int - '0' as int)
  }

  /** The decimal text of a three-digit number, as string formatting writes it. */
  function ThreeDigits(n: IdNumber): (s: string)
    ensures |s| == 3 && IsDigits(s) && DecimalValue(s) == n
  {
    var s := [DigitChar(n / 100), DigitChar(n / 10 % 10), DigitChar(n % 10)];
    assert s[..2][..1] == s[..1] && s[..1][..0] == [];
    assert DecimalValue(s[..1]) == n / 100;
    assert DecimalValue(s[..2]) == n / 100 * 10 + n / 10 % 10 == n / 10;
    s
  }

  /**
   * A generated ID: the upper-cased first letter of the name, then of the
   * surname, then the drawn number; the number can be read back from it.
   */
  function GenerateId(name: string, surname: string, n: IdNumber): (id: string)
    requires name != "" && surname != ""
    ensures |id| == 5 && id[0] == UpperChar(name[0]) && id[1] == UpperChar(surname[0])
    ensures IsDigits(id[2..]) && DecimalValue(id[2..]) == n
  {
    var id := [UpperChar(name[0]), UpperChar(surname[0])] + ThreeDigits(n);
    assert id[2..] == ThreeDigits(n);
    id
  }

  // ---------------------------------------------------------------------------
  // Account values
  // ---------------------------------------------------------------------------

  /** The fields of an account at one moment. */
  datatype Profile = Profile(id: string, name: string, surname: string, email: string,
                             password: string, balance: real, totalStaked: real,
                             history: seq<Entry>, vip: bool)

  /**
   * What every account keeps from construction on: fields the setters
   * accepted, a non-empty ID and a non-negative total staked. The balance
   * and the VIP flag are not part of it: a decrease may take the balance
   * below zero and an increase does not recompute the flag.
   */
  predicate ValidProfile(p: Profile)
  {
    && ValidName(p.name) && ValidName(p.surname)
    && ValidEmail(p.email) && ValidPassword(p.password)
    && p.id != "" && p.totalStaked >= 0.0
  }

  /**
   * The constructor's effect: the setters run in order name, surname,
   * e-mail, password, ID, VIP flag, balance, total staked, history, and the
   * first one that rejects its value decides the error. An empty ID is
   * replaced by a generated one; the VIP argument is always overridden by
   * the balance rule.
   */
  function Build(id: string, name: string, surname: string, email: string, password: string,
                 balance: real, totalStaked: real, history: seq<Entry>, vip: bool,
                 pick: IdNumber): (r: Result<Profile, UserError>)
    ensures r.Success? <==>
              && ValidName(name) && ValidName(surname) && ValidEmail(email)
              && ValidPassword(password) && balance >= 0.0 && totalStaked >= 0.0
    ensures !ValidName(name) ==> r == Failure(InvalidName)
    ensures ValidName(name) && !ValidName(surname) ==> r == Failure(InvalidSurname)
    ensures ValidName(name) && ValidName(surname) && !ValidEmail(email) ==> r == Failure(InvalidEmail)
    ensures ValidName(name) && ValidName(surname) && ValidEmail(email) && !ValidPassword(password) ==>
              r == Failure(InvalidPassword)
    ensures (&& ValidName(name) && ValidName(surname) && ValidEmail(email) && ValidPassword(password)
             && balance < 0.0) ==> r == Failure(NegativeBalance)
    ensures (&& ValidName(name) && ValidName(surname) && ValidEmail(email) && ValidPassword(password)
             && balance >= 0.0 && totalStaked < 0.0) ==> r == Failure(NegativeTotalStaked)
    ensures r.Success? ==> ValidProfile(r.value)
    ensures r.Success? ==> r.value.vip == (balance >= VipThreshold)
    ensures r.Success? && id != "" ==> r.value.id == id
    ensures r.Success? && id == "" ==> r.value.id == GenerateId(name, surname, pick)
    ensures r.Success? ==>
              r.value.(id := id, vip := vip) ==
              Profile(id, name, surname, email, password, balance, totalStaked, history, vip)
  {
    if !ValidName(name) then Failure(InvalidName)
    else if !ValidName(surname) then Failure(InvalidSurname)
    else if !ValidEmail(email) then Failure(InvalidEmail)
    else if !ValidPassword(password) then Failure(InvalidPassword)
    else if balance < 0.0 then Failure(NegativeBalance)
    else if totalStaked < 0.0 then Failure(NegativeTotalStaked)
    else
      var newId := if id == "" then GenerateId(name, surname, pick) else id;
      Success(Profile(newId, name, surname, email, password, balance, totalStaked,
                      history, balance >= VipThreshold))
  }

  /** The fixed credentials of a local account pass validation. */
  lemma LocalCredentialsValid()
    ensures ValidEmail("x@x.com") && ValidPassword("xxxx")
  {
    assert "x@x.com"[1] == '@' && "x@x.com"[3] == '.';
  }

  /** The guard of a balance decrease, as written: a positive amount, or one below the balance. */
  predicate DecreaseAccepted(balance: real, amount: real)
  {
    amount > 0.0 || amount < balance
  }

  /**
   * The decrease guard admits any positive amount, even one above the
   * balance, and a non-positive amount below the balance; it rejects only a
   * non-positive amount that is not below the balance.
   */
  lemma DecreaseGuard(balance: real, amount: real)
    ensures amount > 0.0 ==> DecreaseAccepted(balance, amount)
    ensures !DecreaseAccepted(balance, amount) <==> amount <= 0.0 && amount >= balance
    ensures DecreaseAccepted(100.0, 500.0) && 100.0 - 500.0 < 0.0
    ensures DecreaseAccepted(10.0, -5.0) && 10.0 - (-5.0) > 10.0
  {
  }

  /**
   * The decrease the method's own documentation describes: a ValueError
   * unless the amount is positive and not above the balance.
   */
  function IntendedDecrease(p: Profile, amount: real): (r: Result<Profile, UserError>)
    ensures r.Success? <==> 0.0 < amount <= p.balance
    ensures r.Success? ==> r.value == p.(balance := p.balance - amount)
    ensures r.Success? ==> 0.0 <= r.value.balance < p.balance
    ensures r.Failure? ==> r.error == RejectedDecrease
  {
    if 0.0 < amount <= p.balance then Success(p.(balance := p.balance - amount))
    else Failure(RejectedDecrease)
  }

  /** The documented guard rejects two decreases that the written guard lets through. */
  lemma IntendedDecreaseRejectsOverdraft(p: Profile)
    requires p.balance == 100.0
    ensures DecreaseAccepted(p.balance, 500.0) && IntendedDecrease(p, 500.0).Failure?
    ensures DecreaseAccepted(p.balance, -5.0) && IntendedDecrease(p, -5.0).Failure?
  {
  }

  // ---------------------------------------------------------------------------
  // Dictionary form
  // ---------------------------------------------------------------------------

  /** The dictionary of an account, one optional entry per key. */
  datatype UserDict = UserDict(id: Option<string>, name: Option<string>, surname: Option<string>,
                               balance: Option<real>, totalStaked: Option<real>,
                               email: Option<string>, password: Option<string>,
                               history: Option<seq<Entry>>, vip: Option<bool>)

  /** The dictionary holding every field of an account. */
  function ToDict(p: Profile): UserDict
  {
    UserDict(Some(p.id), Some(p.name), Some(p.surname), Some(p.balance), Some(p.totalStaked),
             Some(p.email), Some(p.password), Some(p.history), Some(p.vip))
  }

  /** The account a dictionary describes: missing keys take their defaults, then the constructor runs. */
  function Decode(d: UserDict, pick: IdNumber): Result<Profile, UserError>
  {
    Build(d.id.GetOr(""), d.name.GetOr(""), d.surname.GetOr(""), d.email.GetOr(""),
          d.password.GetOr(""), d.balance.GetOr(0.0), d.totalStaked.GetOr(0.0),
          d.history.GetOr([]), d.vip.GetOr(false), pick)
  }

  /**
   * Decoding the dictionary of an account with a non-negative balance gives
   * the account back, except that the VIP flag is recomputed from the balance.
   */
  lemma RoundTrip(p: Profile, pick: IdNumber)
    requires ValidProfile(p) && p.balance >= 0.0
    ensures Decode(ToDict(p), pick) == Success(p.(vip := p.balance >= VipThreshold))
  {
  }

  /** An account whose balance went below zero cannot be rebuilt from its dictionary. */
  lemma NegativeBalanceBreaksRoundTrip(p: Profile, pick: IdNumber)
    requires ValidProfile(p) && p.balance < 0.0
    ensures Decode(ToDict(p), pick) == Failure(NegativeBalance)
  {
  }

  /**
   * Under the documented guard an account keeps a non-negative balance, so
   * its dictionary still decodes to it after any accepted decrease.
   */
  lemma IntendedDecreaseKeepsRoundTrip(p: Profile, amount: real, pick: IdNumber)
    requires ValidProfile(p) && p.balance >= 0.0
    requires IntendedDecrease(p, amount).Success?
    ensures var q := IntendedDecrease(p, amount).value;
            && ValidProfile(q) && q.balance >= 0.0
            && Decode(ToDict(q), pick) == Success(q.(vip := q.balance >= VipThreshold))
  {
    RoundTrip(IntendedDecrease(p, amount).value, pick);
  }

  /** A dictionary without a name is rejected, whatever else it holds. */
  lemma MissingNameRejected(d: UserDict, pick: IdNumber)
    requires d.name.None?
    ensures Decode(d, pick) == Failure(InvalidName)
  {
  }

  // ---------------------------------------------------------------------------
  // The account object
  // ---------------------------------------------------------------------------

  /** A user account, updated in place by its setters and balance operations. */
  class User {
    var id: string
    var name: string
    var surname: string
    var email: string
    var password: string
    var balance: real
    var totalStaked: real
    var history: seq<Entry>
    var vip: bool

    /** The current field values. */
    function Snapshot(): Profile
      reads this
    {
      Profile(id, name, surname, email, password, balance, totalStaked, history, vip)
    }

    /** The account invariant, kept by every operation once construction succeeded. */
    ghost predicate Valid()
      reads this
    {
      ValidProfile(Snapshot())
    }

    /** The object before the constructor's setters have run. */
    constructor Blank()
      ensures Snapshot() == Profile("", "", "", "", "", 0.0, 0.0, [], false)
    {
      id, name, surname, email, password := "", "", "", "", "";
      balance, totalStaked, history, vip := 0.0, 0.0, [], false;
    }

    /** Sets the name if it is accepted; otherwise raises and changes nothing. */
    method SetName(value: string) returns (raised: Option<UserError>)
      modifies this
      ensures raised == if ValidName(value) then None else Some(InvalidName)
      ensures Snapshot() == if ValidName(value) then old(Snapshot()).(name := value) else old(Snapshot())
      ensures old(Valid()) ==> Valid()
    {
      if ValidName(value) {
        name := value;
        raised := None;
      } else {
        raised := Some(InvalidName);
      }
    }

    /** Sets the surname under the same rule as the name. */
    method SetSurname(value: string) returns (raised: Option<UserError>)
      modifies this
      ensures raised == if ValidName(value) then None else Some(InvalidSurname)
      ensures Snapshot() == if ValidName(value) then old(Snapshot()).(surname := value) else old(Snapshot())
      ensures old(Valid()) ==> Valid()
    {
      if ValidName(value) {
        surname := value;
        raised := None;
      } else {
        raised := Some(InvalidSurname);
      }
    }

    /** Sets the e-mail address if it contains '@' and '.'. */
    method SetEmail(value: string) returns (raised: Option<UserError>)
      modifies this
      ensures raised == if ValidEmail(value) then None else Some(InvalidEmail)
      ensures Snapshot() == if ValidEmail(value) then old(Snapshot()).(email := value) else old(Snapshot())
      ensures old(Valid()) ==> Valid()
    {
      if ValidEmail(value) {
        email := value;
        raised := None;
      } else {
        raised := Some(InvalidEmail);
      }
    }

    /** Sets the password if it has at least 3 characters. */
    method SetPassword(value: string) returns (raised: Option<UserError>)
      modifies this
      ensures raised == if ValidPassword(value) then None else Some(InvalidPassword)
      ensures Snapshot() == if ValidPassword(value) then old(Snapshot()).(password := value) else old(Snapshot())
      ensures old(Valid()) ==> Valid()
    {
      if ValidPassword(value) {
        password := value;
        raised := None;
      } else {
        raised := Some(InvalidPassword);
      }
    }

    /** Keeps a non-empty ID as given and replaces an empty one by a generated ID. */
    method SetId(value: string, pick: IdNumber)
      requires value == "" ==> name != "" && surname != ""
      modifies this
      ensures name == old(name) && surname == old(surname)
      ensures Snapshot() == old(Snapshot()).(id := if value == "" then GenerateId(name, surname, pick) else value)
      ensures id != ""
      ensures old(Valid()) ==> Valid()
    {
      if value == "" {
        id := GenerateId(name, surname, pick);
      } else {
        id := value;
      }
    }

    /** Sets the VIP flag as given. */
    method SetVip(value: bool)
      modifies this
      ensures Snapshot() == old(Snapshot()).(vip := value)
      ensures old(Valid()) ==> Valid()
    {
      vip := value;
    }

    /** Sets a non-negative balance and makes the account VIP exactly when it reaches the threshold. */
    method SetBalance(value: real) returns (raised: Option<UserError>)
      modifies this
      ensures raised == if value >= 0.0 then None else Some(NegativeBalance)
      ensures Snapshot() == if value >= 0.0
                            then old(Snapshot()).(balance := value, vip := value >= VipThreshold)
                            else old(Snapshot())
      ensures old(Valid()) ==> Valid()
    {
      if !(value < 0.0) {
        balance := value;
        if balance >= VipThreshold {
          SetVip(true);
        } else {
          SetVip(false);
        }
        raised := None;
      } else {
        raised := Some(NegativeBalance);
      }
    }

    /** Sets a non-negative total staked. */
    method SetTotalStaked(value: real) returns (raised: Option<UserError>)
      modifies this
      ensures raised == if value >= 0.0 then None else Some(NegativeTotalStaked)
      ensures Snapshot() == if value >= 0.0 then old(Snapshot()).(totalStaked := value) else old(Snapshot())
      ensures old(Valid()) ==> Valid()
    {
      if !(value < 0.0) {
        totalStaked := value;
        raised := None;
      } else {
        raised := Some(NegativeTotalStaked);
      }
    }

    /** Replaces the transaction history. */
    method SetHistory(value: seq<Entry>)
      modifies this
      ensures Snapshot() == old(Snapshot()).(history := value)
      ensures old(Valid()) ==> Valid()
    {
      history := value;
    }

    /**
     * The constructor: runs the setters in the source's order and gives up
     * at the first one that raises. The result is the account `Build`
     * describes, or the error `Build` names.
     */
    static method Create(id: string, name: string, surname: string, email: string,
                         password: string, balance: real, totalStaked: real,
                         history: seq<Entry>, vip: bool, pick: IdNumber)
      returns (r: Result<User, UserError>)
      ensures r.Success? ==> fresh(r.value) && r.value.Valid()
      ensures r.Success? ==>
                Build(id, name, surname, email, password, balance, totalStaked, history, vip, pick)
                == Success(r.value.Snapshot())
      ensures r.Failure? ==>
                Build(id, name, surname, email, password, balance, totalStaked, history, vip, pick)
                == Failure(r.error)
    {
      var u := new User.Blank();
      var raised := u.SetName(name);
      if raised.Some? { return Failure(raised.value); }
      raised := u.SetSurname(surname);
      if raised.Some? { return Failure(raised.value); }
      raised := u.SetEmail(email);
      if raised.Some? { return Failure(raised.value); }
      raised := u.SetPassword(password);
      if raised.Some? { return Failure(raised.value); }
      u.SetId(id, pick);
      u.SetVip(vip);
      raised := u.SetBalance(balance);
      if raised.Some? { return Failure(raised.value); }
      raised := u.SetTotalStaked(totalStaked);
      if raised.Some? { return Failure(raised.value); }
      u.SetHistory(history);
      return Success(u);
    }

    /**
     * The in-memory part of registering a new user: an empty ID to generate,
     * a balance of 1000, nothing staked, an empty history. Storing the new
     * account is not modelled.
     */
    static method CreateUser(name: string, surname: string, email: string, password: string,
                             pick: IdNumber)
      returns (r: Result<User, UserError>)
      ensures r.Success? <==>
                ValidName(name) && ValidName(surname) && ValidEmail(email) && ValidPassword(password)
      ensures r.Success? ==> fresh(r.value) && r.value.Valid()
      ensures r.Success? ==>
                r.value.Snapshot() ==
                Profile(GenerateId(name, surname, pick), name, surname, email, password,
                        1000.0, 0.0, [], true)
    {
      r := Create("", name, surname, email, password, 1000.0, 0.0, [], false, pick);
    }

    /**
     * A local account: fixed credentials, a balance of 1000 and so VIP,
     * although the constructor is passed `vip = False`.
     */
    static method CreateLocal(name: string, surname: string, pick: IdNumber)
      returns (r: Result<User, UserError>)
      ensures r.Success? <==> ValidName(name) && ValidName(surname)
      ensures r.Success? ==> fresh(r.value) && r.value.Valid()
      ensures r.Success? ==>
                r.value.Snapshot() ==
                Profile(GenerateId(name, surname, pick), name, surname, "x@x.com", "xxxx",
                        1000.0, 0.0, [], true)
    {
      LocalCredentialsValid();
      r := Create("", name, surname, "x@x.com", "xxxx", 1000.0, 0.0, [], false, pick);
    }

    /** Builds an account from its dictionary, as `Decode` describes. */
    static method FromDict(d: UserDict, pick: IdNumber) returns (r: Result<User, UserError>)
      ensures r.Success? ==> fresh(r.value) && r.value.Valid()
      ensures r.Success? ==> Decode(d, pick) == Success(r.value.Snapshot())
      ensures r.Failure? ==> Decode(d, pick) == Failure(r.error)
    {
      r := Create(d.id.GetOr(""), d.name.GetOr(""), d.surname.GetOr(""), d.email.GetOr(""),
                  d.password.GetOr(""), d.balance.GetOr(0.0), d.totalStaked.GetOr(0.0),
                  d.history.GetOr([]), d.vip.GetOr(false), pick);
    }

    /** Appends a record to the history. */
    method AddHistory(entry: Entry)
      modifies this
      ensures Snapshot() == old(Snapshot()).(history := old(history) + [entry])
      ensures old(Valid()) ==> Valid()
    {
      history := history + [entry];
    }

    /** Adds a positive amount to the balance, leaving the VIP flag as it was. */
    method IncreaseBalance(amount: real) returns (raised: Option<UserError>)
      modifies this
      ensures raised == if amount > 0.0 then None else Some(NonPositiveAmount)
      ensures Snapshot() == if amount > 0.0
                            then old(Snapshot()).(balance := old(balance) + amount)
                            else old(Snapshot())
      ensures old(Valid()) ==> Valid()
    {
      if amount > 0.0 {
        balance := balance + amount;
        raised := None;
      } else {
        raised := Some(NonPositiveAmount);
      }
    }

    /**
     * Subtracts the amount from the balance when the guard as written admits
     * it, so the balance may end below zero; the VIP flag is left as it was.
     */
    method DecreaseBalance(amount: real) returns (raised: Option<UserError>)
      modifies this
      ensures raised == if DecreaseAccepted(old(balance), amount) then None else Some(RejectedDecrease)
      ensures Snapshot() == if DecreaseAccepted(old(balance), amount)
                            then old(Snapshot()).(balance := old(balance) - amount)
                            else old(Snapshot())
      ensures old(Valid()) ==> Valid()
    {
      if amount > 0.0 || amount < balance {
        balance := balance - amount;
        raised := None;
      } else {
        raised := Some(RejectedDecrease);
      }
    }

    /** Adds a positive amount to the total staked. */
    method IncreaseTotalStaked(amount: real) returns (raised: Option<UserError>)
      modifies this
      ensures raised == if amount > 0.0 then None else Some(NonPositiveAmount)
      ensures Snapshot() == if amount > 0.0
                            then old(Snapshot()).(totalStaked := old(totalStaked) + amount)
                            else old(Snapshot())
      ensures old(Valid()) ==> Valid()
    {
      if amount > 0.0 {
        totalStaked := totalStaked + amount;
        raised := None;
      } else {
        raised := Some(NonPositiveAmount);
      }
    }
  }
}
