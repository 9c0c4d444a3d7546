/** Optional values and error results. */
module Wrappers {
  datatype Option<+T> = None | Some(value: T)

  datatype Result<+T> = Ok(value: T) | Err(reason: string)
}

/** The string operations the runtime normalises its inputs with. */
module Text {

  /** White space as String.prototype.trim removes it. */
  predicate Blank(c: char) {
    || '\t' <= c <= '\r' || c == ' ' || c == '\U{A0}' || c == '\U{1680}'
    || '\U{2000}' <= c <= '\U{200A}' || c == '\U{2028}' || c == '\U{2029}'
    || c == '\U{202F}' || c == '\U{205F}' || c == '\U{3000}' || c == '\U{FEFF}'
  }

  function TrimLeft(s: string): string {
    if s != "" && Blank(s[0]) then TrimLeft(s[1..]) else s
  }

  function TrimRight(s: string): string {
    if s != "" && Blank(s[|s| - 1]) then TrimRight(s[..|s| - 1]) else s
  }

  function Trim(s: string): string {
    TrimRight(TrimLeft(s))
  }

  /** `slice(0, n)`. */
  function Clip(s: string, n: nat): string {
    if |s| <= n then s else s[..n]
  }

  /** A string that Trim leaves alone. */
  predicate Tight(s: string) {
    s == "" || (!Blank(s[0]) && !Blank(s[|s| - 1]))
  }

  lemma {:induction false} TrimRightIs(s: string)
    ensures TrimRight(s) <= s
    ensures TrimRight(s) == "" || !Blank(TrimRight(s)[|TrimRight(s)| - 1])
    ensures s != "" && !Blank(s[0]) ==> TrimRight(s) != "" && TrimRight(s)[0] == s[0]
  {
    if s != "" && Blank(s[|s| - 1]) {
      TrimRightIs(s[..|s| - 1]);
    }
  }

  lemma {:induction false} TrimLeftIs(s: string)
    ensures |TrimLeft(s)| <= |s|
    ensures TrimLeft(s) == "" || !Blank(TrimLeft(s)[0])
  {
    if s != "" && Blank(s[0]) {
      TrimLeftIs(s[1..]);
    }
  }

  /** The result of Trim is tight, no longer than its input, and Trim is the identity exactly on tight strings. */
  lemma TrimIs(s: string)
    ensures Tight(Trim(s)) && |Trim(s)| <= |s|
    ensures Trim(s) == s <==> Tight(s)
  {
    TrimLeftIs(s);
    TrimRightIs(TrimLeft(s));
  }

  predicate AllBlank(s: string) {
    forall i :: 0 <= i < |s| ==> Blank(s[i])
  }

  lemma {:induction false} TrimLeftSplits(s: string) returns (left: string)
    ensures s == left + TrimLeft(s) && AllBlank(left)
  {
    if s != "" && Blank(s[0]) {
      var rest := TrimLeftSplits(s[1..]);
      left := [s[0]] + rest;
      assert s == [s[0]] + s[1..];
    } else {
      left := "";
    }
  }

  lemma {:induction false} TrimRightSplits(s: string) returns (right: string)
    ensures s == TrimRight(s) + right && AllBlank(right)
  {
    if s != "" && Blank(s[|s| - 1]) {
      var rest := TrimRightSplits(s[..|s| - 1]);
      right := rest + [s[|s| - 1]];
      assert s == s[..|s| - 1] + [s[|s| - 1]];
    } else {
      right := "";
    }
  }

  /** Trimming takes away blanks at both ends and nothing else. */
  lemma TrimSplits(s: string) returns (left: string, right: string)
    ensures s == left + Trim(s) + right && AllBlank(left) && AllBlank(right) && Tight(Trim(s))
  {
    TrimIs(s);
    left := TrimLeftSplits(s);
    right := TrimRightSplits(TrimLeft(s));
  }

  /**
   * Trimming and then clipping may leave trailing blanks. Normalising again removes them, and
   * a third pass changes nothing; a non-empty text never becomes empty on the way.
   */
  lemma ClippedText(t: string, n: nat)
    requires t != "" && Tight(t) && n > 0
    ensures Clip(t, n) != "" && |Clip(t, n)| <= n
    ensures var again := Clip(Trim(Clip(t, n)), n);
            && again != "" && Tight(again) && again == Trim(Clip(t, n)) && |again| <= n
            && (again == Clip(t, n) <==> Tight(Clip(t, n)))
  {
    var c := Clip(t, n);
    TrimIs(c);
    assert TrimLeft(c) == c;
    TrimRightIs(c);
  }

  // ---- decimal rendering ----

  function Digit(d: nat): char
    requires d < 10
  {
    '0' + d as char
  }

  function Dec(n: nat): string {
    if n < 10 then [Digit(n)] else Dec(n / 10) + [Digit(n % 10)]
  }

  function Int(z: int): string {
    if z < 0 then "-" + Dec(-z) else Dec(z)
  }

  predicate AllDigits(s: string) {
    forall i :: 0 <= i < |s| ==> '0' <= s[i] <= '9'
  }

  function Value(s: string): nat
    requires AllDigits(s)
  {
    if s == "" then 0 else 10 * Value(s[..|s| - 1]) + (s[|s| - 1] - '0') as nat
  }

  lemma {:induction false} DecReadsBack(n: nat)
    ensures AllDigits(Dec(n)) && Dec(n) != "" && Value(Dec(n)) == n
  {
    if n >= 10 {
      DecReadsBack(n / 10);
      assert Dec(n)[..|Dec(n)| - 1] == Dec(n / 10);
    } else {
      assert Dec(n)[..0] == "";
    }
  }

  function Pow10(k: nat): nat {
    if k == 0 then 1 else 10 * Pow10(k - 1)
  }

  lemma {:induction false} DecLength(n: nat, k: nat)
    requires k >= 1 && n < Pow10(k)
    ensures |Dec(n)| <= k
  {
    assert Pow10(1) == 10 * Pow10(0);
    if n >= 10 {
      DecLength(n / 10, k - 1);
    }
  }

  lemma IntInjective(a: int, b: int)
    requires Int(a) == Int(b)
    ensures a == b
  {
    DecReadsBack(if a < 0 then -a else a);
    DecReadsBack(if b < 0 then -b else b);
    assert a < 0 <==> Int(a)[0] == '-';
    assert a < 0 ==> Int(a)[1..] == Dec(-a);
    assert b < 0 ==> Int(b)[1..] == Dec(-b);
  }

  lemma IntHasNoColon(z: int)
    ensures ':' !in Int(z)
  {
    DecReadsBack(if z < 0 then -z else z);
  }

  /** Text before the first separator determines the split. */
  lemma {:induction false} SplitFirst(a: string, x: string, b: string, y: string, c: char)
    requires c !in a && c !in b
    requires a + [c] + x == b + [c] + y
    ensures a == b && x == y
  {
    var l, r := a + [c] + x, b + [c] + y;
    assert l[|a|] == c && r[|b|] == c;
    assert |a| == |b|;
    assert l[..|a|] == a && r[..|b|] == b;
    assert l[|a| + 1..] == x && r[|b| + 1..] == y;
  }

  /** Text after the last separator determines the split. */
  lemma SplitLast(a: string, x: string, b: string, y: string, c: char)
    requires c !in x && c !in y
    requires a + [c] + x == b + [c] + y
    ensures a == b && x == y
  {
    var l, r := a + [c] + x, b + [c] + y;
    assert l[|a|] == c && r[|b|] == c;
    assert |a| == |b|;
    assert l[..|a|] == a && r[..|b|] == b;
    assert l[|a| + 1..] == x && r[|b| + 1..] == y;
  }
}
