/**
 * Matching of store keys against the glob patterns of the Redis KEYS command, for the two
 * wildcards: '*' matches any run of characters and '?' exactly one; every other pattern
 * character matches itself.
 */
module Glob {

  function Matches(pattern: string, key: string): bool
    decreases |pattern| + |key|
  {
    if pattern == [] then key == []
    else if pattern[0] == '*' then
      Matches(pattern[1..], key) || (key != [] && Matches(pattern, key[1..]))
    else
      key != [] && (pattern[0] == '?' || pattern[0] == key[0]) && Matches(pattern[1..], key[1..])
  }

  /** A pattern without wildcards. */
  predicate Literal(p: string) { '*' !in p && '?' !in p }

  /** "*" matches every key; clearing the whole store uses it. */
  lemma {:induction false} StarMatchesAll(key: string)
    ensures Matches("*", key)
    decreases |key|
  {
    if key != [] {
      StarMatchesAll(key[1..]);
    }
  }

  /** A pattern without wildcards matches exactly the key spelled like it. */
  lemma {:induction false} LiteralMatchesItself(p: string, key: string)
    requires Literal(p)
    ensures Matches(p, key) <==> key == p
    decreases |p|
  {
    if p != [] && key != [] {
      assert p[0] != '*' && p[0] != '?' by { assert p[0] in p; }
      assert Literal(p[1..]) by {
        forall c | c in p[1..] ensures c in p { var i :| 0 <= i < |p[1..]| && p[1..][i] == c; assert p[i + 1] == c; }
      }
      LiteralMatchesItself(p[1..], key[1..]);
      assert key == p <==> key[0] == p[0] && key[1..] == p[1..] by {
        if key[0] == p[0] && key[1..] == p[1..] {
          assert key == [key[0]] + key[1..];
          assert p == [p[0]] + p[1..];
        }
      }
    } else if p != [] {
      assert p[0] != '*' by { assert p[0] in p; }
    }
  }

  /** A literal prefix consumes exactly itself from the front of the key. */
  lemma {:induction false} LiteralThen(a: string, rest: string, key: string)
    requires Literal(a)
    ensures Matches(a + rest, key) <==> a <= key && Matches(rest, key[|a|..])
    decreases |a|
  {
    if a == [] {
      assert a + rest == rest;
    } else {
      assert a[0] != '*' && a[0] != '?' by { assert a[0] in a; }
      assert Literal(a[1..]) by {
        forall c | c in a[1..] ensures c in a { var i :| 0 <= i < |a[1..]| && a[1..][i] == c; assert a[i + 1] == c; }
      }
      var p := a + rest;
      assert p[0] == a[0] && p[1..] == a[1..] + rest;
      if key != [] {
        LiteralThen(a[1..], rest, key[1..]);
        if |a| <= |key| {
          assert key[1..][|a| - 1..] == key[|a|..];
        }
        assert a <= key <==> a[0] == key[0] && a[1..] <= key[1..];
      }
    }
  }

  /** A leading '*' followed by literal text matches exactly the keys that end with that text. */
  lemma {:induction false} StarThenLiteral(b: string, key: string)
    requires Literal(b)
    ensures Matches("*" + b, key) <==> |b| <= |key| && key[|key| - |b|..] == b
    decreases |key|
  {
    var p := "*" + b;
    assert p[0] == '*' && p[1..] == b;
    LiteralMatchesItself(b, key);
    if key != [] {
      StarThenLiteral(b, key[1..]);
      assert |b| <= |key| - 1 ==> key[1..][|key| - 1 - |b|..] == key[|key| - |b|..];
      if |b| == |key| {
        assert key[|key| - |b|..] == key;
      }
    }
  }

  /**
   * The shape of every glob the services issue: literal text, one '*', literal text. It
   * matches exactly the keys that start with the first text and end with the second, the
   * two not overlapping.
   */
  lemma Infix(a: string, b: string, key: string)
    requires Literal(a) && Literal(b)
    ensures Matches(a + "*" + b, key) <==>
      |a| + |b| <= |key| && a <= key && key[|key| - |b|..] == b
  {
    var rest := "*" + b;
    assert a + "*" + b == a + rest;
    LiteralThen(a, rest, key);
    if a <= key {
      SuffixOfRest(a, b, key);
    }
  }

  lemma SuffixOfRest(a: string, b: string, key: string)
    requires Literal(b) && a <= key
    ensures Matches("*" + b, key[|a|..]) <==> |a| + |b| <= |key| && key[|key| - |b|..] == b
  {
    var t := key[|a|..];
    StarThenLiteral(b, t);
    if |b| <= |t| {
      assert t[|t| - |b|..] == key[|key| - |b|..];
    }
  }

  /** A glob of literal text followed by '*' matches exactly the keys with that prefix. */
  lemma PrefixStar(a: string, key: string)
    requires Literal(a)
    ensures Matches(a + "*", key) <==> a <= key
  {
    assert a + "*" == a + "*" + "";
    Infix(a, "", key);
  }

  lemma LiteralConcat(a: string, b: string)
    requires Literal(a) && Literal(b)
    ensures Literal(a + b)
  {
  }
}
