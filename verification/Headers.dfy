/** Kafka record headers and the retry metadata the worker keeps in them
    (internal/messaging/producer.go). */
module Headers {
  import opened Wrappers

  datatype Header = Header(key: string, value: string)

  // Go's int is 64 bits wide on every platform the worker is built for.
  const MIN_INT := -0x8000_0000_0000_0000
  const MAX_INT := 0x7fff_ffff_ffff_ffff

  // ---------------------------------------------------------------- decimal text

  predicate IsDigit(c: char) {
    '0' <= c <= '9'
  }

  function DigitValue(c: char): nat
    requires IsDigit(c)
  {
    c as int - '0' as int
  }

  /** The "%d" verb on a natural number. */
  function FormatNat(n: nat): string {
    var d := [('0' as int + n % 10) as char];
    if n < 10 then d else FormatNat(n / 10) + d
  }

  /** fmt.Sprintf("%d", n). */
  function FormatInt(n: int): string {
    if n < 0 then "-" + FormatNat(-n) else FormatNat(n)
  }

  /** The characters fmt's scanner skips before a number; '\n' is handled apart. */
  predicate IsScanSpace(c: char) {
    || c == '\t' || c == '\U{000b}' || c == '\U{000c}' || c == '\r' || c == ' '
    || c == '\U{0085}' || c == '\U{00a0}' || c == '\U{1680}'
    || '\U{2000}' <= c <= '\U{200a}' || c == '\U{2028}' || c == '\U{2029}'
    || c == '\U{202f}' || c == '\U{205f}' || c == '\U{3000}'
  }

  /** Drops leading blanks; a newline makes Sscanf give up. */
  function SkipSpace(s: string): Option<string> {
    if s == "" then Some(s)
    else if s[0] == '\n' then None
    else if IsScanSpace(s[0]) then SkipSpace(s[1..])
    else Some(s)
  }

  function LeadingDigits(s: string): string {
    if s != "" && IsDigit(s[0]) then [s[0]] + LeadingDigits(s[1..]) else ""
  }

  function DecimalValue(ds: string): nat {
    if ds == "" then 0
    else DecimalValue(ds[..|ds| - 1]) * 10 + (if IsDigit(ds[|ds| - 1]) then DigitValue(ds[|ds| - 1]) else 0)
  }

  /** What `n := 0; fmt.Sscanf(s, "%d", &n)` leaves in n: blanks, an optional sign, then digits;
      0 when there is no number or it does not fit 64 bits. */
  function ScanInt(s: string): int {
    match SkipSpace(s)
    case None => 0
    case Some(t) =>
      var signed := t != "" && (t[0] == '-' || t[0] == '+');
      var ds := LeadingDigits(if signed then t[1..] else t);
      var v: int := if signed && t[0] == '-' then 0 - DecimalValue(ds) else DecimalValue(ds);
      if MIN_INT <= v <= MAX_INT then v else 0
  }

  lemma {:induction false} FormatNatShape(n: nat)
    ensures FormatNat(n) != ""
    ensures forall i :: 0 <= i < |FormatNat(n)| ==> IsDigit(FormatNat(n)[i])
    ensures DecimalValue(FormatNat(n)) == n
  {
    var d := [('0' as int + n % 10) as char];
    if n < 10 {
      assert DecimalValue(d) == DecimalValue(d[..0]) * 10 + DigitValue(d[0]);
    } else {
      FormatNatShape(n / 10);
      var s := FormatNat(n);
      assert s[..|s| - 1] == FormatNat(n / 10);
    }
  }

  lemma {:induction false} AllDigitsLead(s: string)
    requires forall i :: 0 <= i < |s| ==> IsDigit(s[i])
    ensures LeadingDigits(s) == s
  {
    if s != "" {
      AllDigitsLead(s[1..]);
    }
  }

  lemma NumbersAreNotSkipped(s: string)
    requires s != "" && (IsDigit(s[0]) || s[0] == '-')
    ensures SkipSpace(s) == Some(s)
  {
  }

  /** Decimal print and scan are inverse on every 64-bit int. */
  lemma ScanUndoesFormat(n: int)
    requires MIN_INT <= n <= MAX_INT
    ensures ScanInt(FormatInt(n)) == n
  {
    var m: nat := if n < 0 then -n else n;
    FormatNatShape(m);
    AllDigitsLead(FormatNat(m));
    NumbersAreNotSkipped(FormatInt(n));
    if n < 0 {
      assert FormatInt(n)[1..] == FormatNat(m);
    } else {
      assert IsDigit(FormatInt(n)[0]);
    }
  }

  // ---------------------------------------------------------------- headerInt

  /** The value of the first header named `key`. */
  function Lookup(hs: seq<Header>, key: string): Option<string> {
    if hs == [] then None
    else if hs[0].key == key then Some(hs[0].value)
    else Lookup(hs[1..], key)
  }

  /** The integer reading of a header, 0 when it is missing or unreadable. */
  function HeaderInt(hs: seq<Header>, key: string): int {
    match Lookup(hs, key)
    case None => 0
    case Some(v) => ScanInt(v)
  }

  method ReadHeaderInt(hs: seq<Header>, key: string) returns (n: int)
    ensures n == HeaderInt(hs, key)
    ensures MIN_INT <= n <= MAX_INT
  {
    for i := 0 to |hs|
      invariant Lookup(hs, key) == Lookup(hs[i..], key)
    {
      if hs[i].key == key {
        return ScanInt(hs[i].value);
      }
      assert hs[i..][1..] == hs[i + 1..];
    }
    return 0;
  }

  // ---------------------------------------------------------------- mergeHeaders

  const RETRY_COUNT := "retry-count"
  const ERROR := "error"
  const LAST_RETRY_AT := "last-retry-at"
  const ORIGINAL_TOPIC := "original-topic"
  const FAILED_AT := "failed-at"

  /** The headers a re-queue overwrites. */
  predicate IsControl(key: string) {
    key == RETRY_COUNT || key == ERROR || key == LAST_RETRY_AT
  }

  /** The headers a re-queue carries over, in order. */
  function Kept(hs: seq<Header>): seq<Header> {
    if hs == [] then []
    else
      var last := hs[|hs| - 1];
      Kept(hs[..|hs| - 1]) + (if IsControl(last.key) then [] else [last])
  }

  function Control(retryCount: int, error: string, now: string): seq<Header> {
    [Header(RETRY_COUNT, FormatInt(retryCount)), Header(ERROR, error), Header(LAST_RETRY_AT, now)]
  }

  function MergeHeaders(hs: seq<Header>, retryCount: int, error: string, now: string): seq<Header> {
    Kept(hs) + Control(retryCount, error, now)
  }

  method RebuildHeaders(hs: seq<Header>, retryCount: int, error: string, now: string)
    returns (out: seq<Header>)
    ensures out == MergeHeaders(hs, retryCount, error, now)
  {
    out := [];
    for i := 0 to |hs|
      invariant out == Kept(hs[..i])
    {
      assert hs[..i + 1][..i] == hs[..i];
      if !IsControl(hs[i].key) {
        out := out + [hs[i]];
      }
    }
    assert hs[..|hs|] == hs;
    out := out + Control(retryCount, error, now);
  }

  /** Occurrences of a header name. */
  function Occurrences(hs: seq<Header>, key: string): nat {
    if hs == [] then 0 else (if hs[0].key == key then 1 else 0) + Occurrences(hs[1..], key)
  }

  lemma {:induction false} LookupConcat(a: seq<Header>, b: seq<Header>, key: string)
    ensures Lookup(a + b, key) == if Lookup(a, key).Some? then Lookup(a, key) else Lookup(b, key)
    ensures Occurrences(a + b, key) == Occurrences(a, key) + Occurrences(b, key)
  {
    if a == [] {
      assert a + b == b;
    } else {
      assert (a + b)[1..] == a[1..] + b;
      LookupConcat(a[1..], b, key);
    }
  }

  /** Filtering drops every control header and neither loses nor reorders another one. */
  lemma {:induction false} KeptFilters(hs: seq<Header>, key: string)
    ensures Lookup(Kept(hs), key) == if IsControl(key) then None else Lookup(hs, key)
    ensures Occurrences(Kept(hs), key) == if IsControl(key) then 0 else Occurrences(hs, key)
  {
    if hs != [] {
      var front, last := hs[..|hs| - 1], hs[|hs| - 1];
      KeptFilters(front, key);
      assert hs == front + [last];
      LookupConcat(front, [last], key);
      LookupConcat(Kept(front), if IsControl(last.key) then [] else [last], key);
    }
  }

  lemma {:induction false} KeptConcat(a: seq<Header>, b: seq<Header>)
    ensures Kept(a + b) == Kept(a) + Kept(b)
  {
    if b == [] {
      assert a + b == a;
    } else {
      assert (a + b)[..|a + b| - 1] == a + b[..|b| - 1];
      KeptConcat(a, b[..|b| - 1]);
    }
  }

  lemma {:induction false} KeptIdempotent(hs: seq<Header>)
    ensures Kept(Kept(hs)) == Kept(hs)
  {
    if hs != [] {
      var front, last := hs[..|hs| - 1], hs[|hs| - 1];
      KeptIdempotent(front);
      var tail := if IsControl(last.key) then [] else [last];
      KeptConcat(Kept(front), tail);
      assert tail != [] ==> tail[..0] == [];
    }
  }

  lemma KeptControl(retryCount: int, error: string, now: string)
    ensures Kept(Control(retryCount, error, now)) == []
  {
    var c := Control(retryCount, error, now);
    assert c[..2][..1] == c[..1] && c[..1][..0] == [];
    assert Kept(c[..1]) == [];
    assert Kept(c[..2]) == [];
  }

  /** The count written by a re-queue is the count the next read sees, whatever headers
      (other stale counts included) the message carried. */
  lemma RetryCountRoundTrip(hs: seq<Header>, n: int, error: string, now: string)
    requires MIN_INT <= n <= MAX_INT
    ensures HeaderInt(MergeHeaders(hs, n, error, now), RETRY_COUNT) == n
  {
    KeptFilters(hs, RETRY_COUNT);
    LookupConcat(Kept(hs), Control(n, error, now), RETRY_COUNT);
    ScanUndoesFormat(n);
  }

  /** What a merge records: the count in decimal, the error, and the time, each under its own name. */
  lemma MergeRecords(hs: seq<Header>, n: int, error: string, now: string)
    ensures var m := MergeHeaders(hs, n, error, now);
      && Lookup(m, "retry-count") == Some(FormatInt(n))
      && Lookup(m, "error") == Some(error)
      && Lookup(m, "last-retry-at") == Some(now)
  {
    var c := Control(n, error, now);
    assert c[1..] == [c[1], c[2]] && c[1..][1..] == [c[2]];
    assert Lookup([c[2]], LAST_RETRY_AT) == Some(now);
    assert Lookup(c[1..], LAST_RETRY_AT) == Lookup([c[2]], LAST_RETRY_AT);
    assert Lookup(c[1..], ERROR) == Some(error);
    KeptFilters(hs, RETRY_COUNT);
    KeptFilters(hs, ERROR);
    KeptFilters(hs, LAST_RETRY_AT);
    LookupConcat(Kept(hs), c, RETRY_COUNT);
    LookupConcat(Kept(hs), c, ERROR);
    LookupConcat(Kept(hs), c, LAST_RETRY_AT);
  }

  /** A later merge absorbs an earlier one. */
  lemma MergeAbsorbs(hs: seq<Header>, n: int, e: string, t: string, n': int, e': string, t': string)
    ensures MergeHeaders(MergeHeaders(hs, n, e, t), n', e', t') == MergeHeaders(hs, n', e', t')
  {
    KeptConcat(Kept(hs), Control(n, e, t));
    KeptControl(n, e, t);
    KeptIdempotent(hs);
  }

  lemma ControlShape(n: int, e: string, t: string, key: string)
    ensures var c := Control(n, e, t);
      && Occurrences(c, key) == (if IsControl(key) then 1 else 0)
      && (!IsControl(key) ==> Lookup(c, key) == None)
  {
    var c := Control(n, e, t);
    assert c[1..] == [c[1], c[2]] && c[1..][1..] == [c[2]] && [c[2]][1..] == [];
    assert Occurrences([c[2]], key) == if key == LAST_RETRY_AT then 1 else 0;
    assert Occurrences(c[1..], key) == (if key == ERROR then 1 else 0) + Occurrences([c[2]], key);
    assert !IsControl(key) ==> Lookup([c[2]], key) == None && Lookup(c[1..], key) == Lookup([c[2]], key);
  }

  /** One merge leaves each control header exactly once, keeps the others untouched,
      and fixes the length for every later merge. */
  lemma MergeShape(hs: seq<Header>, n: int, e: string, t: string, key: string)
    ensures var m := MergeHeaders(hs, n, e, t);
      && Occurrences(m, key) == (if IsControl(key) then 1 else Occurrences(hs, key))
      && (!IsControl(key) ==> Lookup(m, key) == Lookup(hs, key))
      && Kept(m) == Kept(hs)
      && m[|m| - 3..] == Control(n, e, t)
      && forall n', e', t' :: |MergeHeaders(m, n', e', t')| == |m|
  {
    var c := Control(n, e, t);
    KeptFilters(hs, key);
    LookupConcat(Kept(hs), c, key);
    KeptConcat(Kept(hs), c);
    KeptControl(n, e, t);
    KeptIdempotent(hs);
    ControlShape(n, e, t, key);
  }
}
