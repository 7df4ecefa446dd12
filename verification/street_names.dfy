/**
 * The street-name normaliser `normalizeStreetName` of the StreetMap
 * component: lower-case the whole name, split it on single spaces,
 * upper-case the first character of every piece and join the pieces with
 * single spaces again. Case mapping is ASCII only: letters outside A-Z/a-z
 * are left as they are.
 */
module StreetNames {
  import opened Wrappers
  import opened JsValues

  /** The exception `name.toLowerCase()` raises when the name is a truthy non-string. */
  datatype TypeError = ToLowerCaseIsNotAFunction(name: JsValue)

  predicate IsUpper(c: char) { 'A' <= c <= 'Z' }

  predicate IsLower(c: char) { 'a' <= c <= 'z' }

  function ToLowerChar(c: char): (r: char)
    ensures !IsUpper(r)
    ensures r == ' ' <==> c == ' '
    ensures IsUpper(c) ==> IsLower(r) && r as int == c as int + 32
    ensures !IsUpper(c) ==> r == c
  {
    if IsUpper(c) then (c as int + 32) as char else c
  }

  function ToUpperChar(c: char): (r: char)
    ensures !IsLower(r)
    ensures r == ' ' <==> c == ' '
    ensures IsLower(c) ==> IsUpper(r) && r as int == c as int - 32
    ensures !IsLower(c) ==> r == c
  {
    if IsLower(c) then (c as int - 32) as char else c
  }

  /** `s.toLowerCase()` under ASCII case mapping. */
  function ToLower(s: string): (r: string)
    ensures |r| == |s|
    ensures forall i :: 0 <= i < |s| ==> r[i] == ToLowerChar(s[i])
  {
    seq(|s|, i requires 0 <= i < |s| => ToLowerChar(s[i]))
  }

  /** Index of the first space in `s`. */
  function FirstSpace(s: string): (i: nat)
    requires ' ' in s
    ensures i < |s| && s[i] == ' '
    ensures forall j :: 0 <= j < i ==> s[j] != ' '
  {
    if s[0] == ' ' then 0 else 1 + FirstSpace(s[1..])
  }

  /**
   * `s.split(' ')`: the pieces between single spaces, empty pieces included;
   * a string without a space yields itself as the only piece.
   */
  function Split(s: string): (pieces: seq<string>)
    ensures |pieces| >= 1
    ensures forall k :: 0 <= k < |pieces| ==> ' ' !in pieces[k]
    decreases |s|
  {
    if ' ' !in s then [s]
    else
      var i := FirstSpace(s);
      [s[..i]] + Split(s[i + 1..])
  }

  /** Total length of the pieces. */
  function LengthSum(pieces: seq<string>): nat
  {
    if |pieces| == 0 then 0 else |pieces[0]| + LengthSum(pieces[1..])
  }

  /**
   * `pieces.join(' ')`: the pieces in order with one space between
   * neighbours, so the result starts with the first piece and its length is
   * the pieces' total plus one per separator.
   */
  function Join(pieces: seq<string>): (r: string)
    ensures |pieces| >= 1 ==> |r| == LengthSum(pieces) + |pieces| - 1
    ensures |pieces| >= 1 ==> pieces[0] <= r
    ensures |pieces| >= 2 ==> r[|pieces[0]|] == ' '
  {
    if |pieces| == 0 then ""
    else if |pieces| == 1 then pieces[0]
    else pieces[0] + " " + Join(pieces[1..])
  }

  /** `word.charAt(0).toUpperCase() + word.slice(1)`. */
  function Capitalize(word: string): (r: string)
    ensures |r| == |word|
    ensures |word| > 0 ==> r[0] == ToUpperChar(word[0]) && r[1..] == word[1..]
  {
    if word == "" then "" else [ToUpperChar(word[0])] + word[1..]
  }

  function CapitalizeAll(pieces: seq<string>): (r: seq<string>)
    ensures |r| == |pieces|
    ensures forall k :: 0 <= k < |pieces| ==> r[k] == Capitalize(pieces[k])
  {
    seq(|pieces|, k requires 0 <= k < |pieces| => Capitalize(pieces[k]))
  }

  /** Position `i` of `s` begins a piece: it is the first position or follows a space. */
  predicate StartsPiece(s: string, i: nat)
    requires i < |s|
  {
    i == 0 || s[i - 1] == ' '
  }

  /**
   * Reference definition of the normalised name, position by position: the
   * first character of every piece is lower-cased then upper-cased, every
   * other character is lower-cased.
   */
  function TitleCaseAt(s: string, i: nat): char
    requires i < |s|
  {
    if StartsPiece(s, i) then ToUpperChar(ToLowerChar(s[i])) else ToLowerChar(s[i])
  }

  /** Splitting at spaces and joining with spaces gives back the string. */
  lemma {:induction false} JoinSplit(s: string)
    ensures Join(Split(s)) == s
    decreases |s|
  {
    if ' ' in s {
      var i := FirstSpace(s);
      var rest := Split(s[i + 1..]);
      assert Split(s) == [s[..i]] + rest;
      JoinSplit(s[i + 1..]);
      assert Join(Split(s)) == s[..i] + " " + Join(rest);
      assert s == s[..i] + " " + s[i + 1..];
    }
  }

  /** In `head + " " + rest` with a space-free `head`, the first space follows `head`. */
  lemma FirstSpaceAfterHead(head: string, rest: string)
    requires ' ' !in head
    ensures ' ' in head + " " + rest && FirstSpace(head + " " + rest) == |head|
  {
    var s := head + " " + rest;
    assert s[|head|] == ' ';
    assert forall j :: 0 <= j < |head| ==> s[j] == head[j] && s[j] != ' ';
  }

  /** Joining space-free pieces with spaces and splitting again gives back the pieces. */
  lemma {:induction false} SplitJoin(pieces: seq<string>)
    requires |pieces| >= 1
    requires forall k :: 0 <= k < |pieces| ==> ' ' !in pieces[k]
    ensures Split(Join(pieces)) == pieces
  {
    if |pieces| > 1 {
      var head, rest := pieces[0], Join(pieces[1..]);
      var s := head + " " + rest;
      assert Join(pieces) == s;
      FirstSpaceAfterHead(head, rest);
      assert s[..|head|] == head && s[|head| + 1..] == rest;
      assert Split(s) == [head] + Split(rest);
      SplitJoin(pieces[1..]);
      assert pieces == [head] + pieces[1..];
    }
  }

  /**
   * Capitalising every piece of an already lower-cased string upper-cases
   * exactly the characters that begin a piece.
   */
  lemma {:induction false} CapitalizePiecesAt(t: string)
    ensures |Join(CapitalizeAll(Split(t)))| == |t|
    ensures forall i :: 0 <= i < |t| ==>
      Join(CapitalizeAll(Split(t)))[i] == (if StartsPiece(t, i) then ToUpperChar(t[i]) else t[i])
    decreases |t|
  {
    if ' ' !in t {
      CapitalizeSinglePieceAt(t);
    } else {
      var k := FirstSpace(t);
      var head, tail := t[..k], t[k + 1..];
      var rest := Split(tail);
      assert Split(t) == [head] + rest;
      assert CapitalizeAll(Split(t)) == [Capitalize(head)] + CapitalizeAll(rest);
      CapitalizePiecesAt(tail);
      CapitalizeFirstPieceAt(t, k, Join(CapitalizeAll(rest)));
    }
  }

  /** A string without spaces is one piece: only its first character is capitalised. */
  lemma CapitalizeSinglePieceAt(t: string)
    requires ' ' !in t
    ensures |Join(CapitalizeAll(Split(t)))| == |t|
    ensures forall i :: 0 <= i < |t| ==>
      Join(CapitalizeAll(Split(t)))[i] == (if StartsPiece(t, i) then ToUpperChar(t[i]) else t[i])
  {
    assert Split(t) == [t];
    assert CapitalizeAll([t]) == [Capitalize(t)];
    var r := Capitalize(t);
    forall i | 0 <= i < |t|
      ensures r[i] == (if StartsPiece(t, i) then ToUpperChar(t[i]) else t[i])
    {
      if i > 0 {
        assert t[i - 1] in t;
        assert r[i] == r[1..][i - 1];
      }
    }
  }

  /**
   * Capitalising the piece before the first space (at `k`) and joining it
   * to an already capitalised remainder capitalises exactly the piece starts.
   */
  lemma CapitalizeFirstPieceAt(t: string, k: nat, r': string)
    requires k < |t| && t[k] == ' ' && forall j :: 0 <= j < k ==> t[j] != ' '
    requires |r'| == |t| - k - 1
    requires forall i :: 0 <= i < |r'| ==>
      r'[i] == (if StartsPiece(t[k + 1..], i) then ToUpperChar(t[k + 1 + i]) else t[k + 1 + i])
    ensures |Capitalize(t[..k]) + " " + r'| == |t|
    ensures forall i :: 0 <= i < |t| ==>
      (Capitalize(t[..k]) + " " + r')[i] == (if StartsPiece(t, i) then ToUpperChar(t[i]) else t[i])
  {
    var head := Capitalize(t[..k]);
    var r := head + " " + r';
    forall i | 0 <= i < |t|
      ensures r[i] == (if StartsPiece(t, i) then ToUpperChar(t[i]) else t[i])
    {
      if i < k {
        assert r[i] == head[i];
        if i > 0 {
          assert head[i] == head[1..][i - 1];
        }
      } else if i == k {
        assert r[i] == ' ';
      } else {
        assert r[i] == r'[i - k - 1];
        if i - k - 1 > 0 {
          assert t[k + 1..][i - k - 2] == t[i - 1];
        }
      }
    }
  }

  /**
   * The normalising pipeline on a string: lower-case, split on spaces,
   * capitalise each piece, join. Characterised position by position by
   * `TitleCaseAt`; in particular length and the positions of spaces are kept.
   */
  function NormalizeText(s: string): (r: string)
    ensures |r| == |s|
    ensures forall i :: 0 <= i < |s| ==> r[i] == TitleCaseAt(s, i)
  {
    var t := ToLower(s);
    CapitalizePiecesAt(t);
    assert forall i :: 0 <= i < |s| ==> (t[i] == ' ' <==> s[i] == ' ');
    Join(CapitalizeAll(Split(t)))
  }

  /**
   * `normalizeStreetName(name)`: a falsy name gives the empty string, a string
   * is normalised, and any other truthy value makes `toLowerCase` throw.
   */
  function NormalizeStreetName(name: JsValue): (r: Result<string, TypeError>)
    ensures !Truthy(name) ==> r == Ok("")
    ensures name.Text? ==> r.Ok? && |r.value| == |name.s|
    ensures name.Text? ==> r == Ok(NormalizeText(name.s))
    ensures r.Err? <==> Truthy(name) && !name.Text?
  {
    if !Truthy(name) then Ok("")
    else if name.Text? then Ok(NormalizeText(name.s))
    else Err(ToLowerCaseIsNotAFunction(name))
  }

  /** Spaces stay where they were; no space is added or removed. */
  lemma SpacesKept(s: string)
    ensures forall i :: 0 <= i < |s| ==> (NormalizeText(s)[i] == ' ' <==> s[i] == ' ')
  {
    var r := NormalizeText(s);
    forall i | 0 <= i < |s| ensures r[i] == ' ' <==> s[i] == ' ' {
      assert r[i] == TitleCaseAt(s, i);
    }
  }

  /** Every piece of the result starts with a non-lower-case character and continues in non-upper-case. */
  lemma PiecesTitleCased(s: string)
    ensures forall i :: 0 <= i < |s| && StartsPiece(NormalizeText(s), i) ==> !IsLower(NormalizeText(s)[i])
    ensures forall i :: 0 <= i < |s| && !StartsPiece(NormalizeText(s), i) ==> !IsUpper(NormalizeText(s)[i])
  {
    var r := NormalizeText(s);
    SpacesKept(s);
    forall i | 0 <= i < |s| ensures StartsPiece(r, i) <==> StartsPiece(s, i) {
      if i > 0 { assert r[i - 1] == ' ' <==> s[i - 1] == ' '; }
    }
  }

  /** Normalising a normalised string changes nothing. */
  lemma NormalizeTextIdempotent(s: string)
    ensures NormalizeText(NormalizeText(s)) == NormalizeText(s)
  {
    var r := NormalizeText(s);
    var rr := NormalizeText(r);
    SpacesKept(s);
    forall i | 0 <= i < |s| ensures rr[i] == r[i] {
      assert StartsPiece(r, i) <==> StartsPiece(s, i) by {
        if i > 0 { assert r[i - 1] == ' ' <==> s[i - 1] == ' '; }
      }
    }
  }

  /** Writing a normalised name back and normalising it again gives the same name. */
  lemma NormalizeStreetNameIdempotent(name: JsValue)
    requires NormalizeStreetName(name).Ok?
    ensures NormalizeStreetName(Text(NormalizeStreetName(name).value)) == NormalizeStreetName(name)
  {
    if name.Text? && name.s != "" {
      NormalizeTextIdempotent(name.s);
    }
  }
}
