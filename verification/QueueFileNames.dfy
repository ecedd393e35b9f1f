/** The file names of the Telegram update queue (internal/secretary/telegram_webhook.go): an id is
    printed with twenty digits, so that the order of the names is the order of the ids. */
module QueueFileNames {
  import opened Common
  import opened Text

  const MAX_INT64 := 0x7FFF_FFFF_FFFF_FFFF
  const MIN_INT64 := -0x8000_0000_0000_0000
  const PENDING_PREFIX := "pending-"
  const SUFFIX := ".json"
  const DIGITS := 20

  type Int64 = x: int | MIN_INT64 <= x <= MAX_INT64

  // ----- printing -----

  function DigitChar(d: nat): char
    requires d < 10
  {
    '0' + d as char
  }

  predicate IsDigit(c: char) {
    '0' <= c <= '9'
  }

  function Power10(n: nat): nat {
    if n == 0 then 1 else 10 * Power10(n - 1)
  }

  /** The last `width` decimal digits of `n`; all of them, padded with zeros, if `n` is short enough. */
  function Padded(n: nat, width: nat): (s: string)
    ensures |s| == width
  {
    if width == 0 then "" else Padded(n / 10, width - 1) + [DigitChar(n % 10)]
  }

  function FileName(prefix: string, id: nat): string {
    prefix + Padded(id, DIGITS) + SUFFIX
  }

  function PendingName(id: nat): string {
    FileName(PENDING_PREFIX, id)
  }

  /** A pending update is in the file "pending-", twenty digits, ".json". */
  lemma NameIs(id: nat)
    ensures |PendingName(id)| == 33 && PendingName(id)[..8] == "pending-" && PendingName(id)[28..] == ".json"
    ensures PendingName(id)[8..28] == Padded(id, 20)
  {
  }

  // ----- reading -----

  predicate HasSuffix(s: string, suffix: string) {
    |suffix| <= |s| && s[|s| - |suffix|..] == suffix
  }

  function TrimPrefix(s: string, prefix: string): string {
    if prefix <= s then s[|prefix|..] else s
  }

  function TrimSuffix(s: string, suffix: string): string {
    if HasSuffix(s, suffix) then s[..|s| - |suffix|] else s
  }

  function Digits(s: string): Option<nat> {
    if s == "" then Some(0)
    else
      var n := |s| - 1;
      var high := Digits(s[..n]);
      if high.Some? && IsDigit(s[n]) then Some(10 * high.value + (s[n] - '0') as nat) else None
  }

  /** strconv.ParseInt(s, 10, 64). */
  function ParseInt(s: string): Option<Int64> {
    if s == "" then None
    else
      var signed := s[0] == '+' || s[0] == '-';
      var body := if signed then s[1..] else s;
      var value := Digits(body);
      if body == "" || value.None? then None
      else
        var magnitude: int := value.value;
        var n := if s[0] == '-' then -magnitude else magnitude;
        if MIN_INT64 <= n <= MAX_INT64 then Some(n) else None
  }

  function UpdateId(name: string, prefix: string): Option<Int64> {
    ParseInt(TrimSuffix(TrimPrefix(name, prefix), SUFFIX))
  }

  // ----- the order of names -----

  lemma {:induction false} CommonPrefix(prefix: string, a: string, b: string)
    ensures StringBefore(prefix + a, prefix + b) == StringBefore(a, b)
  {
    if prefix == "" {
      assert prefix + a == a && prefix + b == b;
    } else {
      assert (prefix + a)[1..] == prefix[1..] + a && (prefix + b)[1..] == prefix[1..] + b;
      CommonPrefix(prefix[1..], a, b);
    }
  }

  /** For strings of the same length, what follows them matters only when they are equal. */
  lemma {:induction false} SameLength(a: string, b: string, s: string, t: string)
    requires |a| == |b|
    ensures StringBefore(a + s, b + t) == (StringBefore(a, b) || (a == b && StringBefore(s, t)))
  {
    if a == "" {
      assert a + s == s && b + t == t;
    } else {
      assert (a + s)[1..] == a[1..] + s && (b + t)[1..] == b[1..] + t;
      SameLength(a[1..], b[1..], s, t);
      assert a == b <==> a[0] == b[0] && a[1..] == b[1..];
    }
  }

  // ----- ids and their names -----

  lemma DigitOrder(c: nat, d: nat)
    requires c < 10 && d < 10
    ensures StringBefore([DigitChar(c)], [DigitChar(d)]) <==> c < d
    ensures [DigitChar(c)] == [DigitChar(d)] <==> c == d
  {
  }

  /** Numbers of at most `width` digits are ordered, and told apart, by their padded digits. */
  lemma {:induction false} PaddedOrdered(m: nat, n: nat, width: nat)
    requires m < Power10(width) && n < Power10(width)
    ensures StringBefore(Padded(m, width), Padded(n, width)) <==> m < n
    ensures Padded(m, width) == Padded(n, width) ==> m == n
    decreases width
  {
    if width > 0 {
      PaddedOrdered(m / 10, n / 10, width - 1);
      DigitOrder(m % 10, n % 10);
      SameLength(Padded(m / 10, width - 1), Padded(n / 10, width - 1), [DigitChar(m % 10)], [DigitChar(n % 10)]);
      SplitLast(Padded(m, width), Padded(m / 10, width - 1), DigitChar(m % 10));
      SplitLast(Padded(n, width), Padded(n / 10, width - 1), DigitChar(n % 10));
    }
  }

  lemma SplitLast(s: string, front: string, last: char)
    requires s == front + [last]
    ensures s[..|s| - 1] == front && s[|s| - 1] == last
  {
  }

  lemma {:induction false} DigitsOfPadded(n: nat, width: nat)
    requires n < Power10(width)
    ensures Digits(Padded(n, width)) == Some(n)
    decreases width
  {
    if width > 0 {
      DigitsOfPadded(n / 10, width - 1);
      SplitLast(Padded(n, width), Padded(n / 10, width - 1), DigitChar(n % 10));
      assert (DigitChar(n % 10) - '0') as nat == n % 10;
    }
  }

  lemma Int64HasTwentyDigits(id: Int64)
    requires id > 0
    ensures id < Power10(DIGITS)
  {
    assert Power10(5) == 100_000;
    assert Power10(10) == 100_000 * Power10(5) by {
      assert Power10(6) == 10 * Power10(5) && Power10(7) == 10 * Power10(6);
      assert Power10(8) == 10 * Power10(7) && Power10(9) == 10 * Power10(8);
    }
    assert Power10(15) == 100_000 * Power10(10) by {
      assert Power10(11) == 10 * Power10(10) && Power10(12) == 10 * Power10(11);
      assert Power10(13) == 10 * Power10(12) && Power10(14) == 10 * Power10(13);
    }
    assert Power10(20) == 100_000 * Power10(15) by {
      assert Power10(16) == 10 * Power10(15) && Power10(17) == 10 * Power10(16);
      assert Power10(18) == 10 * Power10(17) && Power10(19) == 10 * Power10(18);
    }
  }

  lemma NameOrder(prefix: string, a: Int64, b: Int64)
    requires 0 < a && 0 < b
    ensures StringBefore(FileName(prefix, a), FileName(prefix, b)) <==> a < b
  {
    Int64HasTwentyDigits(a);
    Int64HasTwentyDigits(b);
    var da, db := Padded(a, DIGITS), Padded(b, DIGITS);
    PaddedOrdered(a, b, DIGITS);
    assert prefix + da + SUFFIX == prefix + (da + SUFFIX) && prefix + db + SUFFIX == prefix + (db + SUFFIX);
    CommonPrefix(prefix, da + SUFFIX, db + SUFFIX);
    SameLength(da, db, SUFFIX, SUFFIX);
    NothingBeforeItself(SUFFIX);
  }

  /** For all positive int64 ids, names are ordered as the ids are, and different ids have different names. */
  lemma NamesOrderedAsIds(prefix: string, a: Int64, b: Int64)
    requires 0 < a && 0 < b
    ensures StringBefore(FileName(prefix, a), FileName(prefix, b)) <==> a < b
    ensures FileName(prefix, a) == FileName(prefix, b) <==> a == b
  {
    NameOrder(prefix, a, b);
    NameOrder(prefix, b, a);
    NothingBeforeItself(FileName(prefix, a));
  }

  /** Parsing a file's name gives back the id it was made from. */
  lemma NameParsesBack(prefix: string, id: Int64)
    requires id > 0
    ensures UpdateId(FileName(prefix, id), prefix) == Some(id)
  {
    Int64HasTwentyDigits(id);
    DigitsOfPadded(id, DIGITS);
    var name, digits := FileName(prefix, id), Padded(id, DIGITS);
    assert name == prefix + (digits + SUFFIX);
    assert TrimPrefix(name, prefix) == digits + SUFFIX;
    assert TrimSuffix(digits + SUFFIX, SUFFIX) == digits;
    PaddedStartsWithDigit(id, DIGITS);
  }

  lemma {:induction false} PaddedStartsWithDigit(n: nat, width: nat)
    requires width > 0
    ensures IsDigit(Padded(n, width)[0])
  {
    if width > 1 {
      PaddedStartsWithDigit(n / 10, width - 1);
    }
  }

  lemma QueueFileRecognized(id: Int64)
    requires id > 0
    ensures PENDING_PREFIX <= PendingName(id) && HasSuffix(PendingName(id), SUFFIX)
  {
    assert PendingName(id) == PENDING_PREFIX + (Padded(id, DIGITS) + SUFFIX);
  }
}
