/** The three java.lang.String operations the transformation relies on, with
    their exact semantics for a literal, non-empty pattern:
    - `replace(CharSequence, CharSequence)` replaces every occurrence, scanning
      left to right without overlap (ReplaceAll);
    - `replaceFirst(regex, "")` with a pattern that holds no regex
      metacharacter replaces the first occurrence, wherever it is (ReplaceFirst);
    - `split(regex)` with such a pattern cuts at every occurrence, drops the
      trailing empty fields, and returns the whole input when the pattern does
      not occur at all (Split). */
module JavaStrings {

  /** `s` begins with `p`. */
  predicate StartsWith(s: string, p: string) {
    |p| <= |s| && s[..|p|] == p
  }

  /** `p` occurs somewhere in `s`. */
  predicate Occurs(s: string, p: string)
    decreases |s|
  {
    StartsWith(s, p) || (s != [] && Occurs(s[1..], p))
  }

  lemma StartsWithConcat(a: string, b: string, p: string)
    requires StartsWith(a, p)
    ensures StartsWith(a + b, p)
  {
    assert (a + b)[..|p|] == a[..|p|];
  }

  /** Every occurrence of `pat`, found left to right without overlap, is
      replaced by `rep`; the replacement text is not scanned again. */
  function ReplaceAll(s: string, pat: string, rep: string): (r: string)
    requires pat != []
    ensures !Occurs(s, pat) ==> r == s
    ensures rep == [] ==> |r| <= |s|
    ensures rep == [] ==> (|r| == |s| <==> !Occurs(s, pat))
    decreases |s|
  {
    if s == [] then []
    else if StartsWith(s, pat) then rep + ReplaceAll(s[|pat|..], pat, rep)
    else [s[0]] + ReplaceAll(s[1..], pat, rep)
  }

  /** The first occurrence of `pat`, if any, is replaced by `rep`. */
  function ReplaceFirst(s: string, pat: string, rep: string): (r: string)
    requires pat != []
    ensures !Occurs(s, pat) ==> r == s
    ensures StartsWith(s, pat) ==> r == rep + s[|pat|..]
    ensures rep == [] && Occurs(s, pat) ==> |r| == |s| - |pat|
    decreases |s|
  {
    if s == [] then []
    else if StartsWith(s, pat) then rep + s[|pat|..]
    else [s[0]] + ReplaceFirst(s[1..], pat, rep)
  }

  /** All fields of `s` between the occurrences of `d` (found left to right
      without overlap), empty fields included. */
  function Fields(s: string, d: string): (r: seq<string>)
    requires d != []
    ensures |r| >= 1
    ensures !Occurs(s, d) ==> r == [s]
    decreases |s|
  {
    if s == [] then [[]]
    else if StartsWith(s, d) then [[]] + Fields(s[|d|..], d)
    else
      var rest := Fields(s[1..], d);
      assert !Occurs(s, d) ==> rest == [s[1..]] && [s[0]] + s[1..] == s;
      [[s[0]] + rest[0]] + rest[1..]
  }

  /** The fields glued back together with the separator between them. */
  function Join(fs: seq<string>, d: string): string
    decreases |fs|
  {
    if fs == [] then []
    else if |fs| == 1 then fs[0]
    else fs[0] + d + Join(fs[1..], d)
  }

  lemma JoinCons(x: string, fs: seq<string>, d: string)
    requires fs != []
    ensures Join([x] + fs, d) == x + d + Join(fs, d)
  {
    assert ([x] + fs)[1..] == fs;
  }

  lemma JoinPrepend(c: char, fs: seq<string>, d: string)
    requires fs != []
    ensures Join([[c] + fs[0]] + fs[1..], d) == [c] + Join(fs, d)
  {
    var gs := [[c] + fs[0]] + fs[1..];
    if |fs| > 1 {
      assert gs[1..] == fs[1..];
      assert Join(gs, d) == [c] + fs[0] + d + Join(fs[1..], d);
    }
  }

  /** Cutting at the separator loses nothing: the fields join back to the input. */
  lemma {:induction false} JoinFields(s: string, d: string)
    requires d != []
    ensures Join(Fields(s, d), d) == s
    decreases |s|
  {
    if s == [] {
    } else if StartsWith(s, d) {
      var tail := s[|d|..];
      var rest := Fields(tail, d);
      assert Fields(s, d) == [[]] + rest;
      JoinFields(tail, d);
      JoinCons([], rest, d);
      assert Join(Fields(s, d), d) == [] + d + tail;
      assert s == d + tail;
    } else {
      var tail := s[1..];
      var rest := Fields(tail, d);
      assert Fields(s, d) == [[s[0]] + rest[0]] + rest[1..];
      JoinFields(tail, d);
      JoinPrepend(s[0], rest, d);
      assert Join(Fields(s, d), d) == [s[0]] + tail;
      assert s == [s[0]] + tail;
    }
  }

  /** No occurrence of `d` starts inside `a` when `a` is followed by `d`: the
      condition under which `a` comes out of `a + d + b` as one whole field. */
  predicate Clean(a: string, d: string)
    requires d != []
  {
    !Occurs(a + d[..|d| - 1], d)
  }

  /** The replacement runs through the whole text: after a prefix free of
      the pattern, the first occurrence is replaced and the search goes on in
      what follows it, so later occurrences are replaced as well. */
  lemma {:induction false} ReplaceAllThrough(a: string, p: string, b: string, rep: string)
    requires p != [] && Clean(a, p)
    ensures ReplaceAll(a + p + b, p, rep) == a + rep + ReplaceAll(b, p, rep)
    decreases |a|
  {
    if a == [] {
      assert a + p + b == p + b;
      ReplaceAllAtStart(p, b, rep);
    } else {
      var t := a[1..] + p + b;
      var r := ReplaceAll(b, p, rep);
      assert ReplaceAll(t, p, rep) == a[1..] + rep + r by {
        CleanHead(a, p, b);
        ReplaceAllThrough(a[1..], p, b, rep);
      }
      assert ReplaceAll(a + p + b, p, rep) == [a[0]] + ReplaceAll(t, p, rep) by {
        CleanHead(a, p, b);
        assert (a + p + b)[0] == a[0] && (a + p + b)[1..] == t;
      }
      assert [a[0]] + (a[1..] + rep + r) == a + rep + r by {
        assert a == [a[0]] + a[1..];
      }
    }
  }

  lemma ReplaceAllAtStart(p: string, b: string, rep: string)
    requires p != []
    ensures ReplaceAll(p + b, p, rep) == rep + ReplaceAll(b, p, rep)
  {
    assert (p + b)[..|p|] == p;
    assert (p + b)[|p|..] == b;
  }

  /** A text starting with a non-empty clean prefix does not start with the
      pattern, and the rest of the prefix is clean too. */
  lemma CleanHead(a: string, p: string, b: string)
    requires p != [] && a != [] && Clean(a, p)
    ensures !StartsWith(a + p + b, p) && Clean(a[1..], p)
  {
    var p' := p[..|p| - 1];
    assert (a + p + b)[..|p|] == (a + p')[..|p|];
    assert (a + p')[1..] == a[1..] + p';
  }

  /** The single replacement stops at the first occurrence: what follows it
      is kept as it is, occurrences included. */
  lemma {:induction false} ReplaceFirstOnce(a: string, p: string, b: string, rep: string)
    requires p != [] && Clean(a, p)
    ensures ReplaceFirst(a + p + b, p, rep) == a + rep + b
    decreases |a|
  {
    if a == [] {
      assert a + p + b == p + b;
      assert (p + b)[..|p|] == p;
      assert (p + b)[|p|..] == b;
    } else {
      var t := a[1..] + p + b;
      assert ReplaceFirst(t, p, rep) == a[1..] + rep + b by {
        CleanHead(a, p, b);
        ReplaceFirstOnce(a[1..], p, b, rep);
      }
      assert ReplaceFirst(a + p + b, p, rep) == [a[0]] + ReplaceFirst(t, p, rep) by {
        CleanHead(a, p, b);
        assert (a + p + b)[0] == a[0] && (a + p + b)[1..] == t;
      }
      assert [a[0]] + (a[1..] + rep + b) == a + rep + b by {
        assert a == [a[0]] + a[1..];
      }
    }
  }

  /** A field free of the separator is cut off intact from what follows it. */
  lemma {:induction false} FieldsConcat(a: string, d: string, b: string)
    requires d != []
    requires Clean(a, d)
    ensures Fields(a + d + b, d) == [a] + Fields(b, d)
    decreases |a|
  {
    var d' := d[..|d| - 1];
    if a == [] {
      assert a + d + b == d + b;
      assert StartsWith(d + b, d);
      assert (d + b)[|d|..] == b;
    } else {
      var s := a + d + b;
      assert s[..|d|] == (a + d')[..|d|];
      assert !StartsWith(s, d);
      assert (a + d')[1..] == a[1..] + d';
      assert Clean(a[1..], d);
      FieldsConcat(a[1..], d, b);
      assert s[1..] == a[1..] + d + b;
      assert s[0] == a[0];
      assert [a[0]] + a[1..] == a;
    }
  }

  /** Without the separator character, a string is one clean field. */
  lemma {:induction false} CleanWithoutSeparatorChar(a: string, d: string)
    requires d != []
    requires d[0] !in a
    ensures Clean(a, d)
    decreases |a|
  {
    var d' := d[..|d| - 1];
    if a != [] {
      assert (a + d')[1..] == a[1..] + d';
      CleanWithoutSeparatorChar(a[1..], d);
      assert (a + d')[0] == a[0] != d[0];
      assert !StartsWith(a + d', d);
    } else {
      assert a + d' == d';
      NoOccurrenceInShorter(d', d);
    }
  }

  lemma {:induction false} NoOccurrenceInShorter(s: string, p: string)
    requires |s| < |p|
    ensures !Occurs(s, p)
    decreases |s|
  {
    if s != [] {
      NoOccurrenceInShorter(s[1..], p);
    }
  }

  /** Java's String.split: the fields, with trailing empty fields dropped,
      except that an input where the separator never occurs comes back whole. */
  function Split(s: string, d: string): (r: seq<string>)
    requires d != []
    ensures r <= Fields(s, d)
    ensures forall k :: |r| <= k < |Fields(s, d)| ==> Fields(s, d)[k] == []
    ensures |Fields(s, d)| > 1 && r != [] ==> r[|r| - 1] != []
    ensures |Fields(s, d)| == 1 ==> r == Fields(s, d)
  {
    var fs := Fields(s, d);
    if |fs| == 1 then fs else DropTrailingEmpty(fs)
  }

  /** `fs` without its trailing run of empty strings. */
  function DropTrailingEmpty(fs: seq<string>): (r: seq<string>)
    ensures r <= fs
    ensures forall k :: |r| <= k < |fs| ==> fs[k] == []
    ensures r != [] ==> r[|r| - 1] != []
    decreases |fs|
  {
    if fs == [] then []
    else if fs[|fs| - 1] == [] then DropTrailingEmpty(fs[..|fs| - 1])
    else fs
  }
}
