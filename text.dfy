/** String helpers of the build script: JavaScript's `String.prototype.trim`,
    `split(',')`, and the `parseMultiSelect` helper built from them. */
module Text {

  /** The characters `trim` removes: ECMAScript WhiteSpace and LineTerminator. */
  predicate IsSpace(c: char) {
    || c == ' ' || c == '\t' || c == '\n' || c == '\r'
    || c == '\U{000B}' || c == '\U{000C}' || c == '\U{00A0}' || c == '\U{1680}'
    || ('\U{2000}' <= c <= '\U{200A}')
    || c == '\U{2028}' || c == '\U{2029}' || c == '\U{202F}' || c == '\U{205F}'
    || c == '\U{3000}' || c == '\U{FEFF}'
  }

  /** Neither the first nor the last character is whitespace. */
  predicate IsTrimmed(s: string) {
    s == [] || (!IsSpace(s[0]) && !IsSpace(s[|s| - 1]))
  }

  /** `s` with its leading whitespace removed. */
  function TrimStart(s: string): (r: string)
    ensures |r| <= |s| && r == s[|s| - |r|..]
    ensures forall i :: 0 <= i < |s| - |r| ==> IsSpace(s[i])
    ensures r == [] || !IsSpace(r[0])
  {
    if s != [] && IsSpace(s[0]) then TrimStart(s[1..]) else s
  }

  /** `s` with its trailing whitespace removed. */
  function TrimEnd(s: string): (r: string)
    ensures |r| <= |s| && r == s[..|r|]
    ensures forall i :: |r| <= i < |s| ==> IsSpace(s[i])
    ensures r == [] || !IsSpace(r[|r| - 1])
  {
    if s != [] && IsSpace(s[|s| - 1]) then TrimEnd(s[..|s| - 1]) else s
  }

  /** JavaScript's `s.trim()`. */
  function Trim(s: string): (r: string)
    ensures IsTrimmed(r)
    ensures IsTrimmed(s) ==> r == s
  {
    var t := TrimStart(s);
    var r := TrimEnd(t);
    assert r != [] ==> r[0] == t[0];
    r
  }

  /** Trimming gives the empty string exactly when every character is whitespace. */
  lemma TrimToEmpty(s: string)
    ensures Trim(s) == [] <==> forall i :: 0 <= i < |s| ==> IsSpace(s[i])
  {
    var t := TrimStart(s);
    if t != [] {
      assert !IsSpace(s[|s| - |t|]);
      assert TrimEnd(t) != [];
    }
  }

  /** Trimming removes exactly the outer whitespace: the result is the slice of the
      input that starts after its `Lead(s)` leading characters, with only
      whitespace before it and only whitespace after it. Together with
      `IsTrimmed(Trim(s))` this fixes the result for every input. */
  lemma TrimRemovesOuterSpace(s: string)
    ensures Lead(s) + |Trim(s)| <= |s|
    ensures Trim(s) == s[Lead(s)..Lead(s) + |Trim(s)|]
    ensures forall j :: 0 <= j < Lead(s) ==> IsSpace(s[j])
    ensures forall j :: Lead(s) + |Trim(s)| <= j < |s| ==> IsSpace(s[j])
  {
    TrimIsEnds(s);
    InnerRun(s, TrimStart(s), Trim(s), Lead(s));
  }

  /** The number of leading whitespace characters of `s`. */
  function Lead(s: string): nat {
    |s| - |TrimStart(s)|
  }

  lemma TrimIsEnds(s: string)
    ensures Trim(s) == TrimEnd(TrimStart(s))
  {
  }

  /** `r` is a prefix of `t`, `t` a suffix of `s`, and what `r` leaves of `t` is
      whitespace: then `r` is a slice of `s` followed only by whitespace. */
  lemma InnerRun(s: string, t: string, r: string, i: int)
    requires |t| <= |s| && i == |s| - |t| && t == s[i..]
    requires |r| <= |t| && r == t[..|r|]
    requires forall k :: |r| <= k < |t| ==> IsSpace(t[k])
    ensures 0 <= i && i + |r| <= |s| && r == s[i..i + |r|]
    ensures forall j :: i + |r| <= j < |s| ==> IsSpace(s[j])
  {
    forall j | i + |r| <= j < |s|
      ensures IsSpace(s[j])
    {
      assert s[j] == t[j - i];
    }
  }

  /** Trimming only removes characters. */
  lemma TrimKeepsChars(s: string)
    ensures forall c :: c in Trim(s) ==> c in s
  {
    var t := TrimStart(s);
    assert forall c :: c in TrimEnd(t) ==> c in t;
    assert forall c :: c in t ==> c in s;
  }

  /** The pieces of `ps` joined with `sep` between them (the inverse of `Split`). */
  function Join(ps: seq<string>, sep: char): string {
    if ps == [] then []
    else if |ps| == 1 then ps[0]
    else ps[0] + [sep] + Join(ps[1..], sep)
  }

  /** JavaScript's `s.split(sep)` for a one-character separator: the maximal
      separator-free pieces of `s`, in order, empty ones included. */
  function Split(s: string, sep: char): (r: seq<string>)
    ensures |r| >= 1
    ensures forall p :: p in r ==> sep !in p
    ensures Join(r, sep) == s
  {
    if s == [] then [[]]
    else
      var rest := Split(s[1..], sep);
      if s[0] == sep then
        [[]] + rest
      else
        var r := [[s[0]] + rest[0]] + rest[1..];
        assert Join(r, sep) == [s[0]] + Join(rest, sep) by {
          if |rest| > 1 {
            assert rest == [rest[0]] + rest[1..];
          }
        }
        assert s == [s[0]] + s[1..];
        r
  }

  /** Splitting a piece that holds no separator gives that piece alone. */
  lemma {:induction false} SplitWithoutSeparator(a: string, sep: char)
    requires sep !in a
    ensures Split(a, sep) == [a]
  {
    if a != [] {
      SplitWithoutSeparator(a[1..], sep);
      assert [a[0]] + a[1..] == a;
    }
  }

  /** Splitting stops at the first separator. */
  lemma {:induction false} SplitAtFirstSeparator(a: string, b: string, sep: char)
    requires sep !in a
    ensures Split(a + [sep] + b, sep) == [a] + Split(b, sep)
  {
    var s := a + [sep] + b;
    if a == [] {
      assert s[1..] == b;
    } else {
      assert s[1..] == a[1..] + [sep] + b;
      SplitAtFirstSeparator(a[1..], b, sep);
      assert [a[0]] + a[1..] == a;
    }
  }

  /** Split undoes Join on separator-free pieces. */
  lemma {:induction false} SplitJoin(ps: seq<string>, sep: char)
    requires |ps| >= 1
    requires forall p :: p in ps ==> sep !in p
    ensures Split(Join(ps, sep), sep) == ps
  {
    if |ps| == 1 {
      SplitWithoutSeparator(ps[0], sep);
    } else {
      SplitJoin(ps[1..], sep);
      SplitAtFirstSeparator(ps[0], Join(ps[1..], sep), sep);
      assert [ps[0]] + ps[1..] == ps;
    }
  }

  /** Splitting text that holds a separator splits each side on its own. */
  lemma {:induction false} SplitAround(a: string, b: string, sep: char)
    ensures Split(a + [sep] + b, sep) == Split(a, sep) + Split(b, sep)
  {
    var s := a + [sep] + b;
    if a == [] {
      assert s[1..] == b;
    } else {
      assert s[1..] == a[1..] + [sep] + b;
      SplitAround(a[1..], b, sep);
    }
  }

  /** The trimmed pieces of `ps` that are not empty, in order (the `map(v => v.trim())`
      and `filter(Boolean)` of `parseMultiSelect`). */
  function CleanPieces(ps: seq<string>): (r: seq<string>)
    ensures |r| <= |ps|
    ensures forall e :: e in r ==> e != [] && IsTrimmed(e)
  {
    if ps == [] then [] else CleanPiece(ps[0]) + CleanPieces(ps[1..])
  }

  /** One piece trimmed, or nothing when it trims to empty. */
  function CleanPiece(p: string): (r: seq<string>)
    ensures |r| <= 1
    ensures forall e :: e in r ==> e != [] && IsTrimmed(e)
  {
    var t := Trim(p);
    if t == [] then [] else [t]
  }

  /** Trimming a separator-free piece leaves it separator-free. */
  lemma {:induction false} CleanPiecesKeepSeparatorFree(ps: seq<string>, sep: char)
    requires forall p :: p in ps ==> sep !in p
    ensures forall e :: e in CleanPieces(ps) ==> sep !in e
  {
    if ps != [] {
      CleanPiecesKeepSeparatorFree(ps[1..], sep);
      assert sep !in ps[0];
      TrimKeepsChars(ps[0]);
    }
  }

  /** Cleaning works piece by piece. */
  lemma {:induction false} CleanPiecesAppend(xs: seq<string>, ys: seq<string>)
    ensures CleanPieces(xs + ys) == CleanPieces(xs) + CleanPieces(ys)
  {
    if xs == [] {
      assert xs + ys == ys;
    } else {
      calc {
        CleanPieces(xs + ys);
        { assert (xs + ys)[1..] == xs[1..] + ys; }
        CleanPiece(xs[0]) + CleanPieces(xs[1..] + ys);
        { CleanPiecesAppend(xs[1..], ys); }
        CleanPiece(xs[0]) + (CleanPieces(xs[1..]) + CleanPieces(ys));
        CleanPieces(xs) + CleanPieces(ys);
      }
    }
  }

  /** Pieces that are already trimmed and non-empty pass through unchanged. */
  lemma {:induction false} CleanPiecesOfCleanLabels(ps: seq<string>)
    requires forall i :: 0 <= i < |ps| ==> ps[i] != [] && IsTrimmed(ps[i])
    ensures CleanPieces(ps) == ps
  {
    if ps != [] {
      assert Trim(ps[0]) == ps[0];
      CleanPiecesOfCleanLabels(ps[1..]);
      assert [ps[0]] + ps[1..] == ps;
    }
  }

  /** `parseMultiSelect(raw)`: the comma-separated answers of a multi-select cell,
      trimmed, with the empty ones dropped; an empty cell gives no answers. */
  function ParseMultiSelect(raw: string): (r: seq<string>)
    ensures raw == [] ==> r == []
    ensures forall e :: e in r ==> e != [] && IsTrimmed(e) && ',' !in e
  {
    if raw == [] then []
    else
      var pieces := Split(raw, ',');
      CleanPiecesKeepSeparatorFree(pieces, ',');
      CleanPieces(pieces)
  }

  /** Round trip: a list of clean labels written out comma-separated is read back
      as exactly that list. */
  lemma ParseJoinedLabels(labels: seq<string>)
    requires forall l :: l in labels ==> l != [] && IsTrimmed(l) && ',' !in l
    ensures ParseMultiSelect(Join(labels, ',')) == labels
  {
    if labels != [] {
      SplitJoin(labels, ',');
      CleanPiecesOfCleanLabels(labels);
      assert Join(labels, ',') != [] by {
        if |labels| > 1 {
          assert Join(labels, ',') == labels[0] + [','] + Join(labels[1..], ',');
        }
      }
    }
  }

  /** The answers are read in order: those before a comma come first, followed by
      those after it. */
  lemma ParseAroundComma(a: string, b: string)
    ensures ParseMultiSelect(a + [','] + b) == ParseMultiSelect(a) + ParseMultiSelect(b)
  {
    ParseIsCleanSplit(a);
    ParseIsCleanSplit(b);
    ParseIsCleanSplit(a + [','] + b);
    SplitAround(a, b, ',');
    CleanPiecesAppend(Split(a, ','), Split(b, ','));
  }

  /** The early return for an empty cell agrees with splitting it. */
  lemma ParseIsCleanSplit(raw: string)
    ensures ParseMultiSelect(raw) == CleanPieces(Split(raw, ','))
  {
    if raw == [] {
      assert Trim([]) == [];
      assert CleanPieces(Split(raw, ',')) == CleanPieces([[]]);
    }
  }

  /** A cell without commas yields its trimmed text as the only answer, if any. */
  lemma SingleAnswer(raw: string)
    requires ',' !in raw
    ensures ParseMultiSelect(raw) == if Trim(raw) == [] then [] else [Trim(raw)]
  {
    if raw != [] {
      SplitWithoutSeparator(raw, ',');
    }
  }
}
