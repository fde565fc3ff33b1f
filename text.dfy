/** The JavaScript string operations the prompt is built with:
    `replaceAll` of one character by nothing, `Array.prototype.join`, and
    `replace(/\s+/g, " ")`, plus the notion of one string occurring inside another. */
module Text {

  /** `t` occurs in `s` starting at position `i`. */
  predicate OccursAt(t: string, s: string, i: nat)
  {
    i + |t| <= |s| && s[i..i + |t|] == t
  }

  /** `t` occurs as a contiguous piece of `s`. */
  ghost predicate IsInfix(t: string, s: string)
  {
    exists i: nat :: OccursAt(t, s, i)
  }

  /** A piece placed between two others occurs in the result. */
  lemma InfixOfConcat(a: string, t: string, b: string)
    ensures IsInfix(t, a + t + b)
  {
    var s := a + t + b;
    assert s[|a|..|a| + |t|] == t;
    assert OccursAt(t, s, |a|);
  }

  /** Occurring inside is transitive. */
  lemma InfixTransitive(t: string, u: string, s: string)
    requires IsInfix(t, u) && IsInfix(u, s)
    ensures IsInfix(t, s)
  {
    var i: nat :| OccursAt(t, u, i);
    var j: nat :| OccursAt(u, s, j);
    forall k | 0 <= k < |t|
      ensures s[j + i + k] == t[k]
    {
      assert u[i + k] == t[k];
      assert s[j + (i + k)] == u[i + k];
    }
    assert s[j + i..j + i + |t|] == t;
    assert OccursAt(t, s, j + i);
  }

  // ----- replaceAll(c, "") -----

  /** `s` with every `c` deleted. */
  function RemoveChar(s: string, c: char): (r: string)
    ensures c !in r
    ensures multiset(r) == multiset(s)[c := 0]
  {
    if s == [] then []
    else
      var rest := RemoveChar(s[1..], c);
      assert s == [s[0]] + s[1..];
      if s[0] == c then rest else [s[0]] + rest
  }

  /** Deleting distributes over concatenation, so the characters kept stay in order. */
  lemma {:induction false} RemoveCharConcat(a: string, b: string, c: char)
    ensures RemoveChar(a + b, c) == RemoveChar(a, c) + RemoveChar(b, c)
  {
    if a != [] {
      assert (a + b)[0] == a[0] && (a + b)[1..] == a[1..] + b;
      RemoveCharConcat(a[1..], b, c);
    } else {
      assert a + b == b;
    }
  }

  /** A string without `c` is left as it is. */
  lemma {:induction false} RemoveCharAbsent(s: string, c: char)
    requires c !in s
    ensures RemoveChar(s, c) == s
  {
    if s != [] {
      RemoveCharAbsent(s[1..], c);
    }
  }

  // ----- Array.prototype.join -----

  /** The total length of the parts. */
  function SumLengths(parts: seq<string>): nat
  {
    if parts == [] then 0 else |parts[0]| + SumLengths(parts[1..])
  }

  /** The parts with `sep` between neighbours; no parts give the empty string. */
  function Join(parts: seq<string>, sep: string): (r: string)
    ensures |parts| == 0 ==> r == []
    ensures |parts| == 1 ==> r == parts[0]
    ensures |parts| > 0 ==> |r| == SumLengths(parts) + (|parts| - 1) * |sep|
  {
    if |parts| == 0 then []
    else if |parts| == 1 then parts[0]
    else parts[0] + sep + Join(parts[1..], sep)
  }

  /** Joining two non-empty lists is joining each and putting a separator between. */
  lemma {:induction false} JoinAppend(a: seq<string>, b: seq<string>, sep: string)
    requires a != [] && b != []
    ensures Join(a + b, sep) == Join(a, sep) + sep + Join(b, sep)
  {
    assert (a + b)[0] == a[0] && (a + b)[1..] == a[1..] + b;
    if |a| > 1 {
      JoinAppend(a[1..], b, sep);
      calc {
        Join(a + b, sep);
        a[0] + sep + Join(a[1..] + b, sep);
        a[0] + sep + (Join(a[1..], sep) + sep + Join(b, sep));
        (a[0] + sep + Join(a[1..], sep)) + sep + Join(b, sep);
      }
    }
  }

  /** The join around part `k`: everything before it, a separator, the part,
      a separator, everything after it. */
  lemma JoinAround(parts: seq<string>, sep: string, k: nat)
    requires k < |parts|
    ensures Join(parts, sep) ==
      Join(parts[..k], sep) + (if k > 0 then sep else []) + parts[k]
      + (if k + 1 < |parts| then sep + Join(parts[k + 1..], sep) else [])
  {
    var rest := parts[k..];
    assert rest[0] == parts[k] && rest[1..] == parts[k + 1..];
    var tail := if k + 1 < |parts| then sep + Join(parts[k + 1..], sep) else [];
    assert Join(rest, sep) == parts[k] + tail;
    if k > 0 {
      assert parts == parts[..k] + rest;
      JoinAppend(parts[..k], rest, sep);
      assert Join(parts, sep) == Join(parts[..k], sep) + sep + (parts[k] + tail);
    } else {
      assert parts == rest;
    }
  }

  /** Every part occurs in the join. */
  lemma PartInJoin(parts: seq<string>, sep: string, k: nat)
    requires k < |parts|
    ensures IsInfix(parts[k], Join(parts, sep))
  {
    JoinAround(parts, sep, k);
    InfixOfConcat(Join(parts[..k], sep) + (if k > 0 then sep else []), parts[k],
      if k + 1 < |parts| then sep + Join(parts[k + 1..], sep) else []);
  }

  // ----- replace(/\s+/g, " ") -----

  /** The characters the `\s` class of a JavaScript regular expression
      matches: the WhiteSpace and LineTerminator code points of ECMAScript. */
  predicate IsWhitespace(c: char)
  {
    || c == '\t' || c == '\n' || c == '\U{000B}' || c == '\U{000C}' || c == '\r'
    || c == ' ' || c == '\U{00A0}' || c == '\U{1680}'
    || ('\U{2000}' <= c <= '\U{200A}')
    || c == '\U{2028}' || c == '\U{2029}' || c == '\U{202F}' || c == '\U{205F}'
    || c == '\U{3000}' || c == '\U{FEFF}'
  }

  /** The characters at `i` and `i + 1` are both whitespace. */
  predicate WhitespacePairAt(s: string, i: nat)
  {
    i + 1 < |s| && IsWhitespace(s[i]) && IsWhitespace(s[i + 1])
  }

  /** No two whitespace characters stand next to each other. */
  ghost predicate NoAdjacentWhitespace(s: string)
  {
    forall i: nat :: !WhitespacePairAt(s, i)
  }

  /** Every whitespace character is a plain space. */
  ghost predicate OnlyPlainSpaces(s: string)
  {
    forall i :: 0 <= i < |s| && IsWhitespace(s[i]) ==> s[i] == ' '
  }

  /** What a whitespace collapse produces: single plain spaces only. */
  ghost predicate Collapsed(s: string)
  {
    NoAdjacentWhitespace(s) && OnlyPlainSpaces(s)
  }

  /** `s` without its leading run of whitespace. */
  function SkipWhitespace(s: string): (r: string)
    ensures |r| <= |s|
    ensures r == [] || !IsWhitespace(r[0])
    ensures r != [] ==> r[|r| - 1] == s[|s| - 1]
  {
    if s != [] && IsWhitespace(s[0]) then SkipWhitespace(s[1..]) else s
  }

  /** Every maximal run of whitespace replaced by one plain space. */
  function Collapse(s: string): (r: string)
    ensures |r| <= |s|
    ensures s == [] <==> r == []
    ensures s != [] ==> (IsWhitespace(r[0]) <==> IsWhitespace(s[0]))
    decreases |s|
  {
    if s == [] then []
    else if IsWhitespace(s[0]) then [' '] + Collapse(SkipWhitespace(s[1..]))
    else [s[0]] + Collapse(s[1..])
  }

  /** The result of collapsing has single plain spaces only. */
  lemma {:induction false} CollapseIsCollapsed(s: string)
    ensures Collapsed(Collapse(s))
    decreases |s|
  {
    if s != [] {
      var r := Collapse(s);
      var rest := if IsWhitespace(s[0]) then SkipWhitespace(s[1..]) else s[1..];
      CollapseIsCollapsed(rest);
      var tail := Collapse(rest);
      assert r == [r[0]] + tail;
      assert IsWhitespace(s[0]) ==> tail == [] || !IsWhitespace(tail[0]);
      forall i: nat
        ensures !WhitespacePairAt(r, i)
      {
        if 0 < i && i + 1 < |r| {
          assert r[i] == tail[i - 1] && r[i + 1] == tail[i];
          assert !WhitespacePairAt(tail, i - 1);
        }
      }
      forall i | 0 <= i < |r| && IsWhitespace(r[i])
        ensures r[i] == ' '
      {
        if i > 0 {
          assert r[i] == tail[i - 1];
        }
      }
    }
  }

  /** `s` with all whitespace deleted. */
  function NonWhitespace(s: string): (r: string)
    ensures forall i :: 0 <= i < |r| ==> !IsWhitespace(r[i])
  {
    if s == [] then []
    else if IsWhitespace(s[0]) then NonWhitespace(s[1..])
    else [s[0]] + NonWhitespace(s[1..])
  }

  /** Skipping leading whitespace deletes no other character. */
  lemma {:induction false} SkipKeepsText(s: string)
    ensures NonWhitespace(SkipWhitespace(s)) == NonWhitespace(s)
  {
    if s != [] && IsWhitespace(s[0]) {
      SkipKeepsText(s[1..]);
    }
  }

  /** Collapsing keeps every other character, in order. */
  lemma {:induction false} CollapseKeepsText(s: string)
    ensures NonWhitespace(Collapse(s)) == NonWhitespace(s)
    decreases |s|
  {
    if s != [] {
      if IsWhitespace(s[0]) {
        var t := SkipWhitespace(s[1..]);
        CollapseKeepsText(t);
        SkipKeepsText(s[1..]);
        assert NonWhitespace([' '] + Collapse(t)) == NonWhitespace(Collapse(t));
      } else {
        CollapseKeepsText(s[1..]);
        assert NonWhitespace([s[0]] + Collapse(s[1..])) == [s[0]] + NonWhitespace(Collapse(s[1..]));
      }
    }
  }

  /** A string is left unchanged by collapsing exactly when it is already collapsed. */
  lemma {:induction false} CollapseFixpoint(s: string)
    ensures Collapse(s) == s <==> Collapsed(s)
    decreases |s|
  {
    CollapseIsCollapsed(s);
    if s != [] && Collapsed(s) {
      assert Collapsed(s[1..]) by {
        forall i: nat ensures !WhitespacePairAt(s[1..], i) {
          if i + 1 < |s[1..]| {
            assert s[1..][i] == s[i + 1] && s[1..][i + 1] == s[i + 2];
            assert !WhitespacePairAt(s, i + 1);
          }
        }
      }
      CollapseFixpoint(s[1..]);
      if IsWhitespace(s[0]) {
        assert s[0] == ' ';
        assert !WhitespacePairAt(s, 0);
        assert |s| > 1 ==> !IsWhitespace(s[1]);
        assert SkipWhitespace(s[1..]) == s[1..];
      }
    }
  }

  /** Collapsing twice is the same as collapsing once. */
  lemma CollapseIdempotent(s: string)
    ensures Collapse(Collapse(s)) == Collapse(s)
  {
    CollapseIsCollapsed(s);
    CollapseFixpoint(Collapse(s));
  }

  /** The two sides of a cut do not both touch it with whitespace. */
  predicate CleanCut(a: string, b: string)
  {
    (a != [] && !IsWhitespace(a[|a| - 1])) || b == [] || !IsWhitespace(b[0])
  }

  /** Skipping whitespace stops inside `a` or exactly at its end. */
  lemma {:induction false} SkipConcat(a: string, b: string)
    requires CleanCut(a, b)
    ensures SkipWhitespace(a + b) == SkipWhitespace(a) + b
  {
    if a == [] {
      assert a + b == b;
    } else {
      assert (a + b)[0] == a[0] && (a + b)[1..] == a[1..] + b;
      if IsWhitespace(a[0]) {
        SkipConcat(a[1..], b);
      }
    }
  }

  /** One step of collapsing, on a string that starts with whitespace. */
  lemma CollapseHeadWhitespace(a: string, b: string)
    requires a != [] && IsWhitespace(a[0])
    ensures Collapse(a + b) == [' '] + Collapse(SkipWhitespace(a[1..] + b))
  {
    assert (a + b)[0] == a[0] && (a + b)[1..] == a[1..] + b;
  }

  /** One step of collapsing, on a string that starts with anything else. */
  lemma CollapseHeadOther(a: string, b: string)
    requires a != [] && !IsWhitespace(a[0])
    ensures Collapse(a + b) == [a[0]] + Collapse(a[1..] + b)
  {
    assert (a + b)[0] == a[0] && (a + b)[1..] == a[1..] + b;
  }

  /** Collapsing works piecewise across a cut that splits no whitespace run. */
  lemma {:induction false} CollapseConcat(a: string, b: string)
    requires a == [] || CleanCut(a, b)
    ensures Collapse(a + b) == Collapse(a) + Collapse(b)
    decreases |a|
  {
    if a == [] {
      assert a + b == b;
    } else {
      var a' := a[1..];
      if a' != [] {
        assert a'[|a'| - 1] == a[|a| - 1];
      }
      if IsWhitespace(a[0]) {
        assert CleanCut(a', b);
        SkipConcat(a', b);
        var t := SkipWhitespace(a');
        if t != [] {
          assert t[|t| - 1] == a'[|a'| - 1];
        }
        CollapseHeadWhitespace(a, b);
        CollapseConcat(t, b);
      } else {
        CollapseHeadOther(a, b);
        CollapseConcat(a', b);
      }
    }
  }

  /** A piece that neither starts nor ends with whitespace and is already
      collapsed survives collapsing the text around it. */
  lemma InfixSurvivesCollapse(t: string, s: string, i: nat)
    requires OccursAt(t, s, i)
    requires t != [] && !IsWhitespace(t[0]) && !IsWhitespace(t[|t| - 1]) && Collapsed(t)
    ensures OccursAt(t, Collapse(s), |Collapse(s[..i])|)
  {
    var a, b := s[..i], s[i + |t|..];
    assert s == a + (t + b);
    assert (t + b)[0] == t[0];
    CollapseConcat(a, t + b);
    CollapseConcat(t, b);
    CollapseFixpoint(t);
    MiddleAt(Collapse(a), t, Collapse(b));
  }

  /** The middle piece of a three-way concatenation sits right after the first. */
  lemma MiddleAt(x: string, t: string, y: string)
    ensures OccursAt(t, x + (t + y), |x|)
  {
    assert (x + (t + y))[|x|..|x| + |t|] == t;
  }
}
