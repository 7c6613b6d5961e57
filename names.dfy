/** Normalisation of the name claims: `capitalizeFirstLetterOfNames`
    lower-cases the text, splits it on single spaces, upper-cases the first
    character of every piece and joins the pieces with single spaces again. */
module Names {
  import opened AsciiCase

  const Space: char := ' '

  /** `String.prototype.split(' ')`: the pieces between consecutive spaces,
      empty pieces included, so "" gives [""] and "a  b" gives ["a", "", "b"]. */
  function Split(s: string): (pieces: seq<string>)
    ensures |pieces| >= 1
    ensures forall k :: 0 <= k < |pieces| ==> Space !in pieces[k]
    decreases |s|
  {
    if |s| == 0 then [""]
    else
      var rest := Split(s[1..]);
      if s[0] == Space then [""] + rest
      else [[s[0]] + rest[0]] + rest[1..]
  }

  /** `Array.prototype.join(' ')`. */
  function Join(pieces: seq<string>): (s: string)
    decreases |pieces|
  {
    if |pieces| == 0 then ""
    else if |pieces| == 1 then pieces[0]
    else pieces[0] + [Space] + Join(pieces[1..])
  }

  /** `s.charAt(0).toUpperCase() + s.substring(1)`; both halves are empty
      for the empty piece. */
  function CapitalizeWord(w: string): (r: string) {
    if |w| == 0 then "" else [ToUpper(w[0])] + w[1..]
  }

  /** The `.map` step of the chain. */
  function CapitalizeWords(pieces: seq<string>): (r: seq<string>)
    ensures |r| == |pieces|
  {
    seq(|pieces|, k requires 0 <= k < |pieces| => CapitalizeWord(pieces[k]))
  }

  /** `KeycloakAuthService.capitalizeFirstLetterOfNames`. */
  function CapitalizeFirstLetterOfNames(names: string): (r: string) {
    Join(CapitalizeWords(Split(Lower(names))))
  }

  /** Index `i` of `s` starts a word: it is the first index or follows a space. */
  predicate StartsWord(s: string, i: int)
    requires 0 <= i < |s|
  {
    i == 0 || s[i - 1] == Space
  }

  /** Reference definition, one character at a time: the character of
      `CapitalizeFirstLetterOfNames(s)` at index `i`. */
  function CapitalizedAt(s: string, i: int): (c: char)
    requires 0 <= i < |s|
  {
    if StartsWord(s, i) then ToUpper(s[i]) else ToLower(s[i])
  }

  /** Split then join gives back the text that was split. */
  lemma {:induction false} JoinSplit(s: string)
    ensures Join(Split(s)) == s
    decreases |s|
  {
    if |s| > 0 {
      var rest := Split(s[1..]);
      JoinSplit(s[1..]);
      if s[0] == Space {
        assert Split(s) == [""] + rest;
        assert Join(Split(s)) == "" + [Space] + Join(rest);
      } else if |rest| == 1 {
        assert Split(s) == [[s[0]] + rest[0]];
      } else {
        var first := [s[0]] + rest[0];
        assert Split(s) == [first] + rest[1..];
        assert Join(Split(s)) == first + [Space] + Join(rest[1..]);
        assert Join(rest) == rest[0] + [Space] + Join(rest[1..]);
      }
    }
  }

  /** Upper-case the first character of every word of `t` and leave the
      others alone. */
  ghost function UpperAtWordStarts(t: string): (r: string)
    ensures |r| == |t|
  {
    seq(|t|, i requires 0 <= i < |t| => if StartsWord(t, i) then ToUpper(t[i]) else t[i])
  }

  lemma UpperAtWordStartsWord(w: string)
    requires Space !in w
    ensures CapitalizeWord(w) == UpperAtWordStarts(w)
  {
  }

  lemma UpperAtWordStartsAppend(a: string, b: string)
    ensures UpperAtWordStarts(a + [Space] + b)
         == UpperAtWordStarts(a) + [Space] + UpperAtWordStarts(b)
  {
  }

  /** Capitalising every piece and joining is the same as upper-casing the
      word starts of the joined text. */
  lemma {:induction false} JoinCapitalizeWords(pieces: seq<string>)
    requires |pieces| >= 1
    requires forall k :: 0 <= k < |pieces| ==> Space !in pieces[k]
    ensures Join(CapitalizeWords(pieces)) == UpperAtWordStarts(Join(pieces))
    decreases |pieces|
  {
    UpperAtWordStartsWord(pieces[0]);
    if |pieces| > 1 {
      var tail := pieces[1..];
      JoinCapitalizeWords(tail);
      assert CapitalizeWords(pieces)[1..] == CapitalizeWords(tail);
      UpperAtWordStartsAppend(pieces[0], Join(tail));
    }
  }

  /** The split/map/join chain agrees with the reference definition at every
      index, and keeps the length. */
  lemma CapitalizeSpec(s: string)
    ensures |CapitalizeFirstLetterOfNames(s)| == |s|
    ensures forall i :: 0 <= i < |s| ==> CapitalizeFirstLetterOfNames(s)[i] == CapitalizedAt(s, i)
  {
    var low := Lower(s);
    JoinSplit(low);
    JoinCapitalizeWords(Split(low));
    assert CapitalizeFirstLetterOfNames(s) == UpperAtWordStarts(low);
    forall i | 0 <= i < |s|
      ensures CapitalizeFirstLetterOfNames(s)[i] == CapitalizedAt(s, i)
    {
      CaseLaws(s[i]);
      if i > 0 {
        CaseLaws(s[i - 1]);
      }
    }
  }

  /** Capitalisation keeps the length, and a space stays a space at the same
      index and nothing else becomes one. */
  lemma CapitalizeKeepsSpaces(s: string)
    ensures |CapitalizeFirstLetterOfNames(s)| == |s|
    ensures forall i :: 0 <= i < |s| ==> (CapitalizeFirstLetterOfNames(s)[i] == Space <==> s[i] == Space)
  {
    CapitalizeSpec(s);
    forall i | 0 <= i < |s|
      ensures CapitalizeFirstLetterOfNames(s)[i] == Space <==> s[i] == Space
    {
      CaseLaws(s[i]);
    }
  }

  /** Text made only of ASCII letters and spaces. */
  predicate LettersAndSpaces(s: string) {
    forall i :: 0 <= i < |s| ==> IsLetter(s[i]) || s[i] == Space
  }

  /** On letters and spaces: the first letter of every word is upper-case and
      every other letter is lower-case. */
  lemma CapitalizeCaseShape(s: string)
    requires LettersAndSpaces(s)
    ensures |CapitalizeFirstLetterOfNames(s)| == |s|
    ensures LettersAndSpaces(CapitalizeFirstLetterOfNames(s))
    ensures forall i :: 0 <= i < |s| && s[i] != Space ==>
      (StartsWord(s, i) ==> IsUpper(CapitalizeFirstLetterOfNames(s)[i])) &&
      (!StartsWord(s, i) ==> IsLower(CapitalizeFirstLetterOfNames(s)[i]))
  {
    CapitalizeSpec(s);
    var r := CapitalizeFirstLetterOfNames(s);
    forall i | 0 <= i < |s|
      ensures IsLetter(r[i]) || r[i] == Space
      ensures s[i] != Space ==> (StartsWord(s, i) ==> IsUpper(r[i])) && (!StartsWord(s, i) ==> IsLower(r[i]))
    {
      CaseLaws(s[i]);
    }
  }

  /** Capitalising an already capitalised name changes nothing. */
  lemma CapitalizeIdempotent(s: string)
    ensures CapitalizeFirstLetterOfNames(CapitalizeFirstLetterOfNames(s)) == CapitalizeFirstLetterOfNames(s)
  {
    var r := CapitalizeFirstLetterOfNames(s);
    CapitalizeSpec(s);
    CapitalizeSpec(r);
    CapitalizeKeepsSpaces(s);
    forall i | 0 <= i < |r|
      ensures CapitalizeFirstLetterOfNames(r)[i] == r[i]
    {
      CaseLaws(s[i]);
      CaseLaws(ToLower(s[i]));
    }
  }

  /** Text already in capitalised form: every character is what
      capitalisation would put there. */
  predicate IsCapitalized(s: string) {
    forall i :: 0 <= i < |s| ==> s[i] == CapitalizedAt(s, i)
  }

  /** The capitalised texts are exactly the fixed points of
      `CapitalizeFirstLetterOfNames`, and every result is one. */
  lemma CapitalizedIffFixedPoint(s: string)
    ensures IsCapitalized(s) <==> CapitalizeFirstLetterOfNames(s) == s
    ensures IsCapitalized(CapitalizeFirstLetterOfNames(s))
  {
    CapitalizeSpec(s);
    CapitalizeIdempotent(s);
    CapitalizeSpec(CapitalizeFirstLetterOfNames(s));
  }

  /** A text that agrees with the reference definition at every index is the
      result of capitalisation. */
  lemma CapitalizeIs(s: string, r: string)
    requires |r| == |s|
    requires forall i :: 0 <= i < |s| ==> r[i] == CapitalizedAt(s, i)
    ensures CapitalizeFirstLetterOfNames(s) == r
  {
    CapitalizeSpec(s);
  }

  /** "OLA" becomes "Ola". */
  lemma CapitalizeOla()
    ensures CapitalizeFirstLetterOfNames("OLA") == "Ola"
  {
    CapitalizeIs("OLA", "Ola");
  }

  /** "NORDMANN" becomes "Nordmann". */
  lemma CapitalizeNordmann()
    ensures CapitalizeFirstLetterOfNames("NORDMANN") == "Nordmann"
  {
    CapitalizeIs("NORDMANN", "Nordmann");
  }

  /** Both "JANE ann" and "jane ann" become "Jane Ann". */
  lemma CapitalizeJaneAnn()
    ensures CapitalizeFirstLetterOfNames("JANE ann") == "Jane Ann"
    ensures CapitalizeFirstLetterOfNames("jane ann") == "Jane Ann"
  {
    CapitalizeIs("JANE ann", "Jane Ann");
    CapitalizeIs("jane ann", "Jane Ann");
  }
}
