/** The Java string operations the cache keys are built and parsed with. */
module Text {
  import opened Wrappers

  predicate IsDigit(c: char) { '0' <= c <= '9' }

  predicate AllDigits(s: string) { forall i :: 0 <= i < |s| ==> IsDigit(s[i]) }

  /** Every character is a digit or a minus sign, as in the output of Long.toString. */
  predicate Numeral(s: string) { forall i :: 0 <= i < |s| ==> s[i] == '-' || IsDigit(s[i]) }

  function DigitChar(d: int): char
    requires 0 <= d < 10
  {
    ('0' as int + d) as char
  }

  function DigitValue(c: char): int
    requires IsDigit(c)
  {
    c as int - '0' as int
  }

  /** The decimal digits of n, most significant first, with no leading zero. */
  function NatText(n: nat): (s: string)
    ensures |s| >= 1 && AllDigits(s)
    ensures n >= 10 ==> s[0] != '0'
    decreases n
  {
    if n < 10 then [DigitChar(n)] else NatText(n / 10) + [DigitChar(n % 10)]
  }

  /** The number a string of decimal digits denotes. */
  function DigitsValue(s: string): nat
    requires AllDigits(s)
  {
    if s == [] then 0 else DigitsValue(s[..|s| - 1]) * 10 + DigitValue(s[|s| - 1])
  }

  lemma {:induction false} NatTextValue(n: nat)
    ensures DigitsValue(NatText(n)) == n
    decreases n
  {
    if n >= 10 {
      var s := NatText(n);
      assert s[..|s| - 1] == NatText(n / 10);
      NatTextValue(n / 10);
    }
  }

  /** Long.toString (and string concatenation of a Long): a minus sign for negatives, then the digits. */
  function LongText(n: int): (s: string)
    ensures |s| >= 1 && Numeral(s)
    ensures ':' !in s && '*' !in s && '?' !in s
  {
    if n < 0 then "-" + NatText(-n) else NatText(n)
  }

  /** Distinct numbers have distinct decimal texts, so keys built from distinct ids differ. */
  lemma LongTextInjective(a: int, b: int)
    ensures LongText(a) == LongText(b) <==> a == b
  {
    if LongText(a) == LongText(b) {
      SignOfLongText(a);
      SignOfLongText(b);
      if a < 0 {
        assert NatText(-a) == NatText(-b) by {
          assert NatText(-a) == LongText(a)[1..];
          assert NatText(-b) == LongText(b)[1..];
        }
        NatTextValue(-a);
        NatTextValue(-b);
      } else {
        NatTextValue(a);
        NatTextValue(b);
      }
    }
  }

  /** The text of a number starts with '-' exactly when the number is negative. */
  lemma SignOfLongText(n: int)
    ensures LongText(n)[0] == '-' <==> n < 0
  {
    if n >= 0 {
      assert IsDigit(NatText(n)[0]);
    }
  }

  const LongMin: int := -0x8000_0000_0000_0000
  const LongMax: int := 0x7FFF_FFFF_FFFF_FFFF

  predicate IsLong(n: int) { LongMin <= n <= LongMax }

  /**
   * Long.parseLong over ASCII digits: an optional sign, at least one digit and a value in the
   * 64-bit range; any other text throws NumberFormatException, here None.
   */
  function ParseLong(s: string): (r: Option<int>)
    ensures r.Some? ==> IsLong(r.value)
    ensures r.Some? ==> s != [] && AllDigits(if s[0] == '-' || s[0] == '+' then s[1..] else s)
  {
    if s != [] && (s[0] == '-' || s[0] == '+') then
      var body := s[1..];
      if body != [] && AllDigits(body) then
        var v: int := if s[0] == '-' then -(DigitsValue(body) as int) else DigitsValue(body);
        if IsLong(v) then Some(v) else None
      else None
    else if s != [] && AllDigits(s) && IsLong(DigitsValue(s)) then Some(DigitsValue(s))
    else None
  }

  /** Parsing the text of a Long gives the Long back. */
  lemma ParseLongText(n: int)
    requires IsLong(n)
    ensures ParseLong(LongText(n)) == Some(n)
  {
    var s := LongText(n);
    if n < 0 {
      assert s[0] == '-' && s[1..] == NatText(-n);
      NatTextValue(-n);
      assert DigitsValue(s[1..]) == -n;
    } else {
      assert s == NatText(n);
      assert IsDigit(s[0]);
      NatTextValue(n);
    }
  }

  function LowerChar(c: char): char
  {
    if 'A' <= c <= 'Z' then (c as int + 32) as char else c
  }

  /** String.toLowerCase, for the ASCII letters only. */
  function Lower(s: string): (r: string)
    ensures |r| == |s|
    ensures forall i :: 0 <= i < |s| ==> r[i] == LowerChar(s[i])
  {
    if s == [] then [] else [LowerChar(s[0])] + Lower(s[1..])
  }

  /** Lower-casing twice changes nothing more, so keys built from lower-cased text are stable. */
  lemma LowerIdempotent(s: string)
    ensures Lower(Lower(s)) == Lower(s)
  {
    assert forall i :: 0 <= i < |s| ==> LowerChar(LowerChar(s[i])) == LowerChar(s[i]);
  }

  predicate NoUpper(s: string) { forall i :: 0 <= i < |s| ==> !('A' <= s[i] <= 'Z') }

  lemma LowerOfNoUpper(s: string)
    requires NoUpper(s)
    ensures Lower(s) == s
  {
  }

  lemma LowerConcat(a: string, b: string)
    ensures Lower(a + b) == Lower(a) + Lower(b)
  {
  }

  /** The pieces of s between ':' separators, empty pieces included. */
  function Pieces(s: string): (r: seq<string>)
    ensures |r| >= 1
  {
    if s == [] then [[]]
    else
      var rest := Pieces(s[1..]);
      if s[0] == ':' then [[]] + rest else [[s[0]] + rest[0]] + rest[1..]
  }

  function DropTrailingEmpty(ps: seq<string>): (r: seq<string>)
    ensures |r| <= |ps| && r == ps[..|r|]
    ensures r != [] ==> r[|r| - 1] != []
    ensures forall i :: |r| <= i < |ps| ==> ps[i] == []
  {
    if ps == [] then []
    else if ps[|ps| - 1] == [] then DropTrailingEmpty(ps[..|ps| - 1])
    else ps
  }

  /**
   * String.split(":"): the pieces with trailing empty pieces removed; a string without any
   * separator, the empty string included, splits to itself.
   */
  function JavaSplit(s: string): seq<string>
  {
    if s == [] then [[]] else DropTrailingEmpty(Pieces(s))
  }

  /** The text before the first ':', or all of s when it has none. */
  function BeforeColon(s: string): (r: string)
    ensures r <= s && ':' !in r
    ensures |r| < |s| ==> s[|r|] == ':'
  {
    if s == [] || s[0] == ':' then [] else [s[0]] + BeforeColon(s[1..])
  }

  predicate AllColons(s: string) { forall i :: 0 <= i < |s| ==> s[i] == ':' }

  predicate AllEmpty(ps: seq<string>) { forall i :: 0 <= i < |ps| ==> ps[i] == [] }

  lemma {:induction false} FirstPieceIsBeforeColon(s: string)
    ensures Pieces(s)[0] == BeforeColon(s)
    decreases |s|
  {
    if s != [] && s[0] != ':' {
      FirstPieceIsBeforeColon(s[1..]);
    }
  }

  lemma {:induction false} PiecesEmptyIffColons(s: string)
    ensures AllEmpty(Pieces(s)) <==> AllColons(s)
    decreases |s|
  {
    if s != [] {
      PiecesEmptyIffColons(s[1..]);
      var rest := Pieces(s[1..]);
      if s[0] == ':' {
        assert Pieces(s) == [[]] + rest;
        assert AllEmpty([[]] + rest) <==> AllEmpty(rest) by {
          if AllEmpty(rest) {
            forall i | 0 <= i < |rest| + 1 ensures ([[]] + rest)[i] == [] {
              if i > 0 { assert ([[]] + rest)[i] == rest[i - 1]; }
            }
          }
          if AllEmpty([[]] + rest) {
            forall i | 0 <= i < |rest| ensures rest[i] == [] {
              assert ([[]] + rest)[i + 1] == rest[i];
            }
          }
        }
        assert AllColons(s) <==> AllColons(s[1..]) by {
          if AllColons(s[1..]) {
            forall i | 0 <= i < |s| ensures s[i] == ':' {
              if i > 0 { assert s[i] == s[1..][i - 1]; }
            }
          }
        }
      } else {
        assert Pieces(s)[0] == [s[0]] + rest[0];
      }
    }
  }

  /** split(":")[0] is the text before the first ':', and throws only for a non-empty run of ':'. */
  lemma JavaSplitHead(s: string)
    ensures JavaSplit(s) == [] <==> s != [] && AllColons(s)
    ensures JavaSplit(s) != [] ==> JavaSplit(s)[0] == BeforeColon(s)
  {
    if s != [] {
      var ps := Pieces(s);
      var r := DropTrailingEmpty(ps);
      PiecesEmptyIffColons(s);
      FirstPieceIsBeforeColon(s);
      if !AllColons(s) {
        var j :| 0 <= j < |ps| && ps[j] != [];
        assert |r| > j;
        assert r[0] == ps[0];
      }
    }
  }

  /** One step of Pieces: a ':' starts a new piece, any other character joins the first one. */
  lemma PiecesCons(c: char, t: string)
    ensures Pieces([c] + t) == if c == ':' then [[]] + Pieces(t) else [[c] + Pieces(t)[0]] + Pieces(t)[1..]
  {
    assert ([c] + t)[1..] == t;
  }

  /** The step of Pieces commutes with appending the pieces of what follows a separator. */
  lemma ConsThenAppend(c: char, head: seq<string>, tail: seq<string>)
    requires |head| >= 1
    ensures (if c == ':' then [[]] + (head + tail) else [[c] + (head + tail)[0]] + (head + tail)[1..]) ==
            (if c == ':' then [[]] + head else [[c] + head[0]] + head[1..]) + tail
  {
    if c != ':' {
      assert (head + tail)[1..] == head[1..] + tail;
    }
  }

  /** Splitting around one separator splits each side independently. */
  lemma {:induction false} PiecesConcat(a: string, b: string)
    ensures Pieces(a + [':'] + b) == Pieces(a) + Pieces(b)
    decreases |a|
  {
    if a == [] {
      assert a + [':'] + b == [':'] + b;
      PiecesCons(':', b);
    } else {
      var t := a[1..] + [':'] + b;
      assert a + [':'] + b == [a[0]] + t;
      assert a == [a[0]] + a[1..];
      PiecesConcat(a[1..], b);
      PiecesCons(a[0], t);
      PiecesCons(a[0], a[1..]);
      ConsThenAppend(a[0], Pieces(a[1..]), Pieces(b));
    }
  }

  lemma {:induction false} PiecesOfWord(w: string)
    requires ':' !in w
    ensures Pieces(w) == [w]
    decreases |w|
  {
    if w != [] {
      PiecesOfWord(w[1..]);
      assert w == [w[0]] + w[1..];
    }
  }

  /** split(":") of a key ending in ":" plus a non-empty word ends with that word. */
  lemma JavaSplitLast(prefix: string, w: string)
    requires w != [] && ':' !in w
    ensures JavaSplit(prefix + [':'] + w) == Pieces(prefix) + [w]
  {
    PiecesConcat(prefix, w);
    PiecesOfWord(w);
    var ps := Pieces(prefix) + [w];
    assert ps[|ps| - 1] == w;
  }

  /** The text before the first ':' of a word followed by ':' is the word. */
  lemma {:induction false} BeforeColonOfWord(w: string, rest: string)
    requires ':' !in w
    ensures BeforeColon(w + [':'] + rest) == w
    decreases |w|
  {
    if w == [] {
      assert (w + [':'] + rest)[0] == ':';
    } else {
      assert (w + [':'] + rest)[0] == w[0];
      assert (w + [':'] + rest)[1..] == w[1..] + [':'] + rest;
      BeforeColonOfWord(w[1..], rest);
    }
  }
}
