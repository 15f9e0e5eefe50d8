/** Values shared by the migration tool: the Client entity, the request sent
    to the new product, the migration configuration, the exceptions the
    service raises, and Java's decimal rendering of integers used to build
    exception messages. */
module Model {

  datatype Option<+T> = None | Some(value: T)

  datatype Result<+T> = Success(value: T) | Failure(error: string)

  /** A stored client. `id` is null (None) until the store assigns one;
      `migrated` starts out false. */
  datatype Client = Client(id: Option<int>, name: string, migrated: bool)

  /** The body of the outbound migration call: the client's id and name. */
  datatype ClientMigrationRequest = ClientMigrationRequest(id: Option<int>, name: string)

  /** Migration configuration: the new product's URL (null when not set),
      the feature flag and the timeout in seconds (a Java int). */
  datatype MigrationProperties = MigrationProperties(
    newProductApiUrl: Option<string>,
    enableExternalMigration: bool,
    timeoutSeconds: int)

  const DefaultProperties := MigrationProperties(None, true, 30)

  /** The exceptions that can leave ClientService.migrateClient. `Unexpected`
      stands for any other exception, which the generic handler catches. */
  datatype Exception =
    | ClientNotFound(message: string)
    | IllegalState(message: string)
    | Migration(message: string)
    | Unexpected(message: string)

  /** How a call ends: it returns normally or throws. */
  datatype Outcome = Returned | Threw(exception: Exception)

  // Java's int: 32-bit two's complement.

  const IntMin: int := -0x8000_0000
  const IntMax: int := 0x7FFF_FFFF

  predicate IsInt(x: int) {
    IntMin <= x <= IntMax
  }

  /** The value Java's int arithmetic yields for the mathematical result x. */
  function WrapInt(x: int): (r: int)
    ensures IsInt(r)
    ensures IsInt(x) ==> r == x
    ensures (r - x) % 0x1_0000_0000 == 0
  {
    var m := (x - IntMin) % 0x1_0000_0000;
    m + IntMin
  }

  // Decimal rendering of integers, as Java's string concatenation writes them.

  predicate IsDigit(c: char) {
    '0' <= c <= '9'
  }

  predicate AllDigits(s: string) {
    forall i :: 0 <= i < |s| ==> IsDigit(s[i])
  }

  function DigitChar(d: nat): (c: char)
    requires d < 10
    ensures IsDigit(c) && c as int - '0' as int == d
  {
    ('0' as int + d) as char
  }

  /** The digits of n, most significant first, without leading zeros. */
  function Digits(n: nat): (s: string)
    ensures |s| >= 1 && AllDigits(s)
    ensures n >= 10 ==> s[0] != '0'
    decreases n
  {
    if n < 10 then [DigitChar(n)] else Digits(n / 10) + [DigitChar(n % 10)]
  }

  /** The number a string of digits denotes. */
  function DigitsValue(s: string): nat
    requires AllDigits(s)
    decreases |s|
  {
    if s == [] then 0
    else DigitsValue(s[..|s| - 1]) * 10 + (s[|s| - 1] as int - '0' as int)
  }

  lemma {:induction false} DigitsRoundTrip(n: nat)
    ensures DigitsValue(Digits(n)) == n
    decreases n
  {
    if n >= 10 {
      DigitsRoundTrip(n / 10);
      var s := Digits(n);
      assert s[..|s| - 1] == Digits(n / 10);
    }
  }

  /** `"" + x` for a Java long x. */
  function DecimalString(x: int): (s: string)
    ensures |s| >= 1
    ensures (x < 0) == (s[0] == '-')
  {
    if x < 0 then "-" + Digits(-x) else Digits(x)
  }

  lemma DigitsInjective(a: nat, b: nat)
    ensures Digits(a) == Digits(b) ==> a == b
  {
    DigitsRoundTrip(a);
    DigitsRoundTrip(b);
  }

  /** Distinct numbers are written differently, so a message that embeds an
      id identifies that id. */
  lemma DecimalStringInjective(x: int, y: int)
    ensures DecimalString(x) == DecimalString(y) ==> x == y
  {
    if DecimalString(x) == DecimalString(y) && x < 0 && y < 0 {
      SamePrefixSameTail("-", Digits(-x), Digits(-y));
      DigitsInjective(-x, -y);
    } else if DecimalString(x) == DecimalString(y) && x >= 0 && y >= 0 {
      DigitsInjective(x, y);
    }
  }

  predicate StartsWith(s: string, prefix: string) {
    |prefix| <= |s| && s[..|prefix|] == prefix
  }

  /** If two strings with a common prefix are equal, their tails are. */
  lemma SamePrefixSameTail(p: string, s: string, t: string)
    requires p + s == p + t
    ensures s == t
  {
    assert s == (p + s)[|p|..];
    assert t == (p + t)[|p|..];
  }

  /** If two strings with a common suffix are equal, their heads are. */
  lemma SameSuffixSameHead(s: string, t: string, q: string)
    requires s + q == t + q
    ensures s == t
  {
    assert |s| == |t|;
    assert s == (s + q)[..|s|];
    assert t == (t + q)[..|t|];
  }
}
