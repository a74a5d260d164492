/** Small vocabulary shared by the modules. */
module Common {

  datatype Option<+T> = None | Some(value: T)

  newtype byte = x: int | 0 <= x < 256

  // What a uint64 counts up to.
  const TWO64: nat := 0x1_0000_0000_0000_0000

  // Sequences here are consumed left to right, so most folds are defined by their last element.
  function Last<T>(s: seq<T>): T
    requires s != []
  {
    s[|s| - 1]
  }

  function DropLast<T>(s: seq<T>): seq<T>
    requires s != []
  {
    s[..|s| - 1]
  }

  lemma AppendAssoc<T>(a: seq<T>, b: seq<T>, c: seq<T>)
    ensures (a + b) + c == a + (b + c)
  {
  }

  // ---------------------------------------------------------------- strings, as far as ASCII goes

  predicate IsSpace(c: char) {
    c == ' ' || '\t' <= c <= '\r'
  }

  function TrimLeft(s: string): string {
    if s != "" && IsSpace(s[0]) then TrimLeft(s[1..]) else s
  }

  function TrimRight(s: string): string {
    if s != "" && IsSpace(Last(s)) then TrimRight(DropLast(s)) else s
  }

  function TrimSpace(s: string): string {
    TrimRight(TrimLeft(s))
  }

  /** t is what is left of s without the white space around it. */
  ghost predicate Stripped(s: string, t: string) {
    exists i: nat, j: nat :: Core(s, t, i, j)
  }

  predicate Core(s: string, t: string, i: nat, j: nat) {
    i <= j <= |s| && t == s[i..j] && Blank(s[..i]) && Blank(s[j..]) && (t != "" ==> !IsSpace(t[0]) && !IsSpace(Last(t)))
  }

  predicate Blank(s: string) {
    forall k :: 0 <= k < |s| ==> IsSpace(s[k])
  }

  lemma {:induction false} TrimLeftFrom(s: string) returns (i: nat)
    ensures i <= |s| && TrimLeft(s) == s[i..] && Blank(s[..i]) && (i < |s| ==> !IsSpace(s[i]))
    decreases |s|
  {
    i := 0;
    if s != "" && IsSpace(s[0]) {
      var k := TrimLeftFrom(s[1..]);
      i := k + 1;
      assert s[..i] == [s[0]] + s[1..][..k];
    }
  }

  lemma {:induction false} TrimRightTo(s: string) returns (j: nat)
    ensures j <= |s| && TrimRight(s) == s[..j] && Blank(s[j..]) && (j > 0 ==> !IsSpace(s[j - 1]))
    decreases |s|
  {
    j := |s|;
    if s != "" && IsSpace(Last(s)) {
      j := TrimRightTo(DropLast(s));
      assert s[j..] == DropLast(s)[j..] + [Last(s)];
    }
  }

  lemma {:induction false} TrimStrips(s: string)
    ensures Stripped(s, TrimSpace(s))
  {
    var i := TrimLeftFrom(s);
    var k := TrimRightTo(s[i..]);
    assert s[i..][..k] == s[i..i + k] && s[i..][k..] == s[i + k..];
    assert Core(s, TrimSpace(s), i, i + k);
  }

  // A core that is not empty lies within any other.
  lemma {:induction false} CoreWithin(s: string, t: string, i: nat, j: nat, u: string, m: nat, n: nat)
    requires Core(s, t, i, j) && Core(s, u, m, n) && t != ""
    ensures m <= i && j <= n
  {
    assert t[0] == s[i] && Last(t) == s[j - 1];
    forall k | 0 <= k < m ensures IsSpace(s[k]) {
      assert s[..m][k] == s[k];
    }
    forall k | n <= k < |s| ensures IsSpace(s[k]) {
      assert s[n..][k - n] == s[k];
    }
  }

  lemma {:induction false} StrippedIsOne(s: string, t: string, u: string)
    requires Stripped(s, t) && Stripped(s, u)
    ensures t == u
  {
    var i: nat, j: nat :| Core(s, t, i, j);
    var m: nat, n: nat :| Core(s, u, m, n);
    if t != "" {
      CoreWithin(s, t, i, j, u, m, n);
    }
    if u != "" {
      CoreWithin(s, u, m, n, t, i, j);
    }
  }

  lemma {:induction false} StrippedIff(s: string, t: string)
    ensures Stripped(s, t) <==> t == TrimSpace(s)
  {
    TrimStrips(s);
    if Stripped(s, t) {
      StrippedIsOne(s, t, TrimSpace(s));
    }
  }

  // Equal up to the case of ASCII letters.
  predicate SameLetter(a: char, b: char) {
    a == b || ('a' <= a <= 'z' && b as int == a as int - 32) || ('a' <= b <= 'z' && a as int == b as int - 32)
  }

  function Lower(s: string): string {
    seq(|s|, i requires 0 <= i < |s| => if 'A' <= s[i] <= 'Z' then s[i] - 'A' + 'a' else s[i])
  }
}
