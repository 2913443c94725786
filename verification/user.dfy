/**
 * Account validators shared by every user schema: the customer phone format, the
 * derived customer type, and the guards around password hashing and comparison.
 * The hash and compare functions themselves are parameters.
 */
module User {
  import opened Common
  import opened Decimal

  const MinPhoneDigits: nat := 10
  const MaxPhoneDigits: nat := 15

  /** How many ASCII digits the string starts with. */
  function LeadingDigits(s: string): (n: nat)
    ensures n <= |s|
    ensures AllDigits(s[..n])
    ensures n < |s| ==> !IsDigit(s[n])
  {
    if s != [] && IsDigit(s[0]) then
      var n := 1 + LeadingDigits(s[1..]);
      assert s[..n] == [s[0]] + s[1..][..n - 1];
      n
    else 0
  }

  /** `/^\d{10,15}$/.test(v)`: the digits run from the start and reach the end. */
  function IsValidPhone(v: string): (ok: bool)
    ensures ok <==> AllDigits(v) && MinPhoneDigits <= |v| <= MaxPhoneDigits
  {
    var n := LeadingDigits(v);
    assert n == |v| ==> v[..n] == v;
    n == |v| && MinPhoneDigits <= n <= MaxPhoneDigits
  }

  /** A phone number with anything but digits, such as a leading '+', is refused. */
  lemma PlusPrefixRefused(v: string)
    ensures !IsValidPhone(['+'] + v)
  {
    assert !IsDigit((['+'] + v)[0]);
  }

  datatype CustomerType = NewCustomer | ExistingCustomer

  /** The calculatedUserType virtual: "existing" only for a numeric ordersCount above 5. */
  function CalculatedUserType(ordersCount: Option<int>): (t: CustomerType)
    ensures t == ExistingCustomer <==> ordersCount.Some? && ordersCount.value > 5
  {
    match ordersCount
    case Some(n) => if n > 5 then ExistingCustomer else NewCustomer
    case None => NewCustomer
  }

  /** The type only moves from new to existing as the order count grows. */
  lemma UserTypeMonotone(m: int, n: int)
    requires m <= n
    ensures CalculatedUserType(Some(m)) == ExistingCustomer ==> CalculatedUserType(Some(n)) == ExistingCustomer
  {
  }

  /** comparePassword: no stored password (absent or "") never matches. */
  function ComparePassword(stored: Option<string>, candidate: string, compare: (string, string) -> bool): (ok: bool)
    ensures !TruthyString(stored) ==> !ok
    ensures TruthyString(stored) ==> ok == compare(candidate, stored.value)
  {
    if !TruthyString(stored) then false else compare(candidate, stored.value)
  }

  /** The password part of a user document, with Mongoose's `isModified('password')`. */
  class Account {
    var password: Option<string>
    var passwordModified: bool

    constructor (password: Option<string>)
      ensures this.password == password && passwordModified == password.Some?
    {
      this.password := password;
      passwordModified := password.Some?;
    }

    /**
     * hashPassword: the stored password is replaced by its hash only when it was modified and
     * is non-empty; otherwise it is left untouched.
     */
    method HashPassword(hash: string -> string)
      modifies this`password
      ensures passwordModified && TruthyString(old(password)) ==> password == Some(hash(old(password).value))
      ensures !(passwordModified && TruthyString(old(password))) ==> password == old(password)
    {
      if !passwordModified || !TruthyString(password) {
        return;
      }
      password := Some(hash(password.value));
    }
  }

  /**
   * With a compare that recognises its own hashes, the password a user set is accepted after
   * the hook has hashed it.
   */
  method HashThenCompare(account: Account, hash: string -> string, compare: (string, string) -> bool)
    returns (ok: bool)
    requires account.passwordModified && TruthyString(account.password)
    requires forall c :: compare(c, hash(c))
    requires forall c :: hash(c) != ""
    modifies account`password
    ensures ok
  {
    var plain := account.password.value;
    account.HashPassword(hash);
    ok := ComparePassword(account.password, plain, compare);
  }
}
