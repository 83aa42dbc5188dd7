/** The two regular expressions of the text-entry parser, as a backtracking
    matcher that tries the alternatives of each atom in the order a
    JavaScript regular expression does (greedy quantifiers longest first,
    alternatives left to right, an optional group before its omission), and
    tries start positions from the left. */
module Pattern {
  import opened Wrappers
  import opened Text

  /** The atoms the two expressions are made of. The flag `i` makes every
      `Word` case-insensitive; `Number` is `(\d+)`, `Unit` is
      `(rs|rupees?|inr)?`, `Rest` is `(.+)`, `Spaces(true)` is `\s+` and
      `Spaces(false)` is `\s*`. */
  datatype Atom = Word(w: string) | Spaces(atLeastOne: bool) | Number | Unit | Rest

  /** The expression `verb\s+(\d+)\s*(rs|rupees?|inr)?\s+prep\s+(.+)`, for
      a verb and a preposition in lower case. */
  function Sentence(verb: string, prep: string): seq<Atom> {
    [Word(verb), Spaces(true), Number, Spaces(false), Unit, Spaces(true), Word(prep), Spaces(true), Rest]
  }

  /** `/spent\s+(\d+)\s*(rs|rupees?|inr)?\s+on\s+(.+)/i`. */
  const SpentPattern: seq<Atom> := Sentence("spent", "on")

  /** `/earned\s+(\d+)\s*(rs|rupees?|inr)?\s+from\s+(.+)/i`. */
  const EarnedPattern: seq<Atom> := Sentence("earned", "from")

  /** `.`: every character but a line terminator. */
  predicate IsAny(c: char) { !IsLineTerminator(c) }

  /** The lower-case ASCII word `w` occurs at `p`, in either case. */
  predicate WordAt(text: string, p: nat, w: string) {
    p + |w| <= |text| && Lower(text[p..p + |w|]) == w
  }

  /** The atom `a` can match exactly `text[p..e]`. */
  predicate AtomMatches(a: Atom, text: string, p: nat, e: int) {
    p <= e <= |text| &&
    match a
    case Word(w) => e == p + |w| && WordAt(text, p, w)
    case Spaces(atLeastOne) =>
      (atLeastOne ==> p < e) && forall i :: p <= i < e ==> IsSpace(text[i])
    case Number => p < e && forall i :: p <= i < e ==> IsDigit(text[i])
    case Rest => p < e && forall i :: p <= i < e ==> IsAny(text[i])
    case Unit =>
      e == p || (e == p + 2 && WordAt(text, p, "rs")) || (e == p + 5 && WordAt(text, p, "rupee"))
      || (e == p + 6 && WordAt(text, p, "rupees")) || (e == p + 3 && WordAt(text, p, "inr"))
  }

  /** `hi, hi - 1, ..., lo`. */
  function Countdown(hi: int, lo: int): (r: seq<int>)
    ensures forall e :: e in r <==> lo <= e <= hi
    decreases hi - lo
  {
    if hi < lo then [] else [hi] + Countdown(hi - 1, lo)
  }

  /** The ends the atom may take at `p`, in the order the regular expression
      tries them. */
  function Ends(a: Atom, text: string, p: nat): (r: seq<int>)
    requires p <= |text|
    ensures forall e :: e in r <==> AtomMatches(a, text, p, e)
  {
    match a
    case Word(w) => if WordAt(text, p, w) then [p + |w|] else []
    case Spaces(atLeastOne) =>
      Countdown(p + Run(text, p, IsSpace), if atLeastOne then p + 1 else p)
    case Number => Countdown(p + Run(text, p, IsDigit), p + 1)
    case Rest => Countdown(p + Run(text, p, IsAny), p + 1)
    case Unit => UnitEnds(text, p)
  }

  /** `(rs|rupees?|inr)?`: the alternatives left to right, `rupees` before
      `rupee`, and the empty match last. */
  function UnitEnds(text: string, p: nat): (r: seq<int>)
    requires p <= |text|
    ensures forall e :: e in r <==> AtomMatches(Unit, text, p, e)
  {
    (if WordAt(text, p, "rs") then [p + 2] else [])
    + (if WordAt(text, p, "rupees") then [p + 6] else [])
    + (if WordAt(text, p, "rupee") then [p + 5] else [])
    + (if WordAt(text, p, "inr") then [p + 3] else [])
    + [p]
  }

  /** The atoms capture `(\d+)` and `(.+)`; the unit group is captured by the
      expressions too, but nothing reads it. */
  predicate Captures(a: Atom) { a.Number? || a.Rest? }

  /** The atoms match `text` from `p` on, to some end. */
  ghost predicate MatchesFrom(atoms: seq<Atom>, text: string, p: nat)
    requires p <= |text|
    decreases |atoms|
  {
    atoms == [] ||
    exists e :: AtomMatches(atoms[0], text, p, e) && MatchesFrom(atoms[1..], text, e)
  }

  /** The captured texts fit the atoms that capture them: digits for
      `(\d+)`, a line without its terminator for `(.+)`, both non-empty. */
  predicate Fits(atoms: seq<Atom>, caps: seq<string>)
    decreases |atoms|
  {
    if atoms == [] then caps == []
    else if Captures(atoms[0]) then
      |caps| > 0 && AtomMatches(atoms[0], caps[0], 0, |caps[0]|) && Fits(atoms[1..], caps[1..])
    else Fits(atoms[1..], caps)
  }

  /** The first way, in backtracking order, the atoms match from `p`, as the
      texts of the capturing atoms. */
  function Match(atoms: seq<Atom>, text: string, p: nat): (r: Option<seq<string>>)
    requires p <= |text|
    ensures r.Some? ==> Fits(atoms, r.value)
    decreases |atoms|, 1, 0
  {
    if atoms == [] then Some([])
    else TryEnds(atoms, text, p, Ends(atoms[0], text, p))
  }

  /** Tries the rest of the atoms after each of the first atom's ends in turn. */
  function TryEnds(atoms: seq<Atom>, text: string, p: nat, ends: seq<int>): (r: Option<seq<string>>)
    requires atoms != [] && p <= |text|
    requires forall e :: e in ends ==> AtomMatches(atoms[0], text, p, e)
    ensures r.Some? ==> Fits(atoms, r.value)
    decreases |atoms|, 0, |ends|
  {
    if ends == [] then None
    else
      var e := ends[0];
      assert AtomMatches(atoms[0], text, p, e);
      match Match(atoms[1..], text, e)
      case Some(caps) =>
        if Captures(atoms[0]) then
          var piece := text[p..e];
          assert forall i :: 0 <= i < |piece| ==> piece[i] == text[p + i];
          assert ([piece] + caps)[1..] == caps;
          Some([piece] + caps)
        else Some(caps)
      case None => TryEnds(atoms, text, p, ends[1..])
  }

  /** The matcher misses no way to match: it succeeds from `p` exactly when
      the atoms can match from `p`. */
  lemma {:induction false} MatchComplete(atoms: seq<Atom>, text: string, p: nat)
    requires p <= |text|
    ensures Match(atoms, text, p).Some? <==> MatchesFrom(atoms, text, p)
    decreases |atoms|, 1, 0
  {
    if atoms != [] {
      TryEndsComplete(atoms, text, p, Ends(atoms[0], text, p));
    }
  }

  lemma {:induction false} TryEndsComplete(atoms: seq<Atom>, text: string, p: nat, ends: seq<int>)
    requires atoms != [] && p <= |text|
    requires forall e :: e in ends ==> AtomMatches(atoms[0], text, p, e)
    ensures TryEnds(atoms, text, p, ends).Some?
      <==> exists e :: e in ends && 0 <= e <= |text| && MatchesFrom(atoms[1..], text, e)
    decreases |atoms|, 0, |ends|
  {
    if ends != [] {
      var e := ends[0];
      assert AtomMatches(atoms[0], text, p, e);
      MatchComplete(atoms[1..], text, e);
      if Match(atoms[1..], text, e).None? {
        TryEndsComplete(atoms, text, p, ends[1..]);
        assert forall e' :: e' in ends <==> e' == e || e' in ends[1..];
      }
    }
  }

  /** The atoms match from some start at or after `start`. */
  ghost predicate MatchesAfter(atoms: seq<Atom>, text: string, start: nat) {
    exists s: nat :: start <= s <= |text| && MatchesFrom(atoms, text, s)
  }

  /** `text.match(re)`: the leftmost start at which the atoms match, and the
      captures of the first way they match there. */
  function Search(atoms: seq<Atom>, text: string, start: nat): (r: Option<seq<string>>)
    requires start <= |text| + 1
    ensures r.Some? ==> Fits(atoms, r.value)
    decreases |text| + 1 - start
  {
    if start > |text| then None
    else
      match Match(atoms, text, start)
      case Some(caps) => Some(caps)
      case None => Search(atoms, text, start + 1)
  }

  /** The search succeeds exactly when the atoms match from some start. */
  lemma {:induction false} SearchComplete(atoms: seq<Atom>, text: string, start: nat)
    requires start <= |text| + 1
    ensures Search(atoms, text, start).Some? <==> MatchesAfter(atoms, text, start)
    decreases |text| + 1 - start
  {
    if start <= |text| {
      MatchComplete(atoms, text, start);
      if Match(atoms, text, start).None? {
        SearchComplete(atoms, text, start + 1);
        if MatchesAfter(atoms, text, start) {
          var s: nat :| start <= s <= |text| && MatchesFrom(atoms, text, s);
          assert s != start;
          assert MatchesAfter(atoms, text, start + 1);
        }
      } else {
        assert MatchesFrom(atoms, text, start);
      }
    }
  }

  /** The atoms match from no start in `start..s`. */
  predicate FailsBefore(atoms: seq<Atom>, text: string, start: nat, s: nat)
    requires s <= |text| + 1
  {
    forall k: nat :: start <= k < s ==> Match(atoms, text, k).None?
  }

  /** What the search returns is the first way the atoms match at the
      leftmost start from which they match at all. */
  lemma {:induction false} SearchLeftmost(atoms: seq<Atom>, text: string, start: nat)
    requires start <= |text| + 1 && Search(atoms, text, start).Some?
    ensures exists s: nat :: (start <= s <= |text| && Match(atoms, text, s) == Search(atoms, text, start)
      && FailsBefore(atoms, text, start, s))
    decreases |text| + 1 - start
  {
    if Match(atoms, text, start).None? {
      SearchLeftmost(atoms, text, start + 1);
      var s: nat :| start + 1 <= s <= |text| && Match(atoms, text, s) == Search(atoms, text, start + 1)
        && FailsBefore(atoms, text, start + 1, s);
      assert FailsBefore(atoms, text, start, s);
    } else {
      assert FailsBefore(atoms, text, start, start);
    }
  }

  /** The captures of `text.match(re)`, or `None` for a `null` match. */
  function Find(atoms: seq<Atom>, text: string): (r: Option<seq<string>>)
    ensures r.Some? ==> Fits(atoms, r.value)
  {
    Search(atoms, text, 0)
  }

  /** `text.match(re)` is non-null exactly when the expression matches
      somewhere in the text. */
  lemma FindComplete(atoms: seq<Atom>, text: string)
    ensures Find(atoms, text).Some? <==> MatchesAfter(atoms, text, 0)
  {
    SearchComplete(atoms, text, 0);
  }

  /** Captures of a nine-atom expression shaped like the two above. */
  lemma NineAtomCaptures(atoms: seq<Atom>, caps: seq<string>)
    requires |atoms| == 9 && atoms[2] == Number && atoms[8] == Rest
    requires forall i :: 0 <= i < 9 && i != 2 && i != 8 ==> !Captures(atoms[i])
    requires Fits(atoms, caps)
    ensures |caps| == 2
    ensures AtomMatches(Number, caps[0], 0, |caps[0]|) && AtomMatches(Rest, caps[1], 0, |caps[1]|)
  {
    assert Fits(atoms[1..], caps);
    assert Fits(atoms[2..], caps);
    assert Fits(atoms[3..], caps[1..]);
    assert Fits(atoms[4..], caps[1..]);
    assert Fits(atoms[5..], caps[1..]);
    assert Fits(atoms[6..], caps[1..]);
    assert Fits(atoms[7..], caps[1..]);
    assert Fits(atoms[8..], caps[1..]);
    assert Fits(atoms[9..], caps[1..][1..]);
  }

  lemma NinePattern(atoms: seq<Atom>)
    requires atoms == SpentPattern || atoms == EarnedPattern
    ensures |atoms| == 9 && atoms[2] == Number && atoms[8] == Rest
    ensures forall i :: 0 <= i < 9 && i != 2 && i != 8 ==> !Captures(atoms[i])
  {
  }

  /** A match of either expression captures the amount and the description:
      a non-empty run of digits, and a non-empty text with no line break. */
  lemma PatternCaptures(atoms: seq<Atom>, text: string)
    requires atoms == SpentPattern || atoms == EarnedPattern
    requires Find(atoms, text).Some?
    ensures |Find(atoms, text).value| == 2
    ensures |Find(atoms, text).value[0]| > 0 && AllDigits(Find(atoms, text).value[0])
    ensures |Find(atoms, text).value[1]| > 0
    ensures forall i :: 0 <= i < |Find(atoms, text).value[1]| ==> !IsLineTerminator(Find(atoms, text).value[1][i])
  {
    NinePattern(atoms);
    NineAtomCaptures(atoms, Find(atoms, text).value);
  }

  // ---------------------------------------------------------------------------
  // How a sentence is read

  /** A run of `cls` from `p` that stops at `q` has length `q - p`. */
  lemma RunExact(s: string, p: nat, q: nat, cls: char -> bool)
    requires p <= q <= |s|
    requires forall i :: p <= i < q ==> cls(s[i])
    requires q == |s| || !cls(s[q])
    ensures Run(s, p, cls) == q - p
  {
  }

  lemma CountdownTwo(lo: int)
    ensures Countdown(lo + 1, lo) == [lo + 1, lo]
  {
    assert Countdown(lo - 1, lo) == [];
    assert Countdown(lo, lo) == [lo];
  }

  /** Backtracking: the first end the atom tries lets the rest match. */
  lemma FirstEnd(atoms: seq<Atom>, text: string, p: nat, e: nat, caps: seq<string>)
    requires atoms != [] && p <= e <= |text|
    requires |Ends(atoms[0], text, p)| > 0 && Ends(atoms[0], text, p)[0] == e
    requires Match(atoms[1..], text, e) == Some(caps)
    ensures Match(atoms, text, p) == Some(if Captures(atoms[0]) then [text[p..e]] + caps else caps)
  {
  }

  /** Backtracking: the first end fails and the second lets the rest match. */
  lemma SecondEnd(atoms: seq<Atom>, text: string, p: nat, e0: nat, e: nat, caps: seq<string>)
    requires atoms != [] && p <= e0 <= |text| && p <= e <= |text|
    requires |Ends(atoms[0], text, p)| > 1
    requires Ends(atoms[0], text, p)[0] == e0 && Ends(atoms[0], text, p)[1] == e
    requires Match(atoms[1..], text, e0) == None
    requires Match(atoms[1..], text, e) == Some(caps)
    ensures Match(atoms, text, p) == Some(if Captures(atoms[0]) then [text[p..e]] + caps else caps)
  {
    var ends := Ends(atoms[0], text, p);
    assert ends[1..][0] == e;
    assert TryEnds(atoms, text, p, ends[1..]) == Some(if Captures(atoms[0]) then [text[p..e]] + caps else caps);
  }

  /** A single white-space character before a non-space: `\s+` and `\s*`
      both take it first. */
  lemma OneSpace(atoms: seq<Atom>, text: string, p: nat, caps: seq<string>)
    requires atoms != [] && atoms[0].Spaces? && p + 1 < |text|
    requires IsSpace(text[p]) && !IsSpace(text[p + 1])
    requires Match(atoms[1..], text, p + 1) == Some(caps)
    ensures Match(atoms, text, p) == Some(caps)
  {
    RunExact(text, p, p + 1, IsSpace);
    FirstEnd(atoms, text, p, p + 1, caps);
  }

  /** `\s+` at a non-space fails. */
  lemma NoSpace(atoms: seq<Atom>, text: string, p: nat)
    requires atoms != [] && atoms[0] == Spaces(true) && p < |text| && !IsSpace(text[p])
    ensures Match(atoms, text, p) == None
  {
    RunExact(text, p, p, IsSpace);
    assert Ends(atoms[0], text, p) == [];
  }

  /** `\s*` before a non-space gives its one space back when the rest fails
      after it. */
  lemma GiveBackSpace(atoms: seq<Atom>, text: string, p: nat, caps: seq<string>)
    requires atoms != [] && atoms[0] == Spaces(false) && p + 1 < |text|
    requires IsSpace(text[p]) && !IsSpace(text[p + 1])
    requires Match(atoms[1..], text, p + 1) == None
    requires Match(atoms[1..], text, p) == Some(caps)
    ensures Match(atoms, text, p) == Some(caps)
  {
    RunExact(text, p, p + 1, IsSpace);
    CountdownTwo(p);
    SecondEnd(atoms, text, p, p + 1, p, caps);
  }

  /** No unit starts with a character other than `r` or `i`. */
  lemma NoUnitAt(text: string, p: nat)
    requires p < |text| && LowerChar(text[p]) != 'r' && LowerChar(text[p]) != 'i'
    ensures Ends(Unit, text, p) == [p]
  {
    assert !WordAt(text, p, "rs") by {
      if p + 2 <= |text| { assert Lower(text[p..p + 2])[0] == LowerChar(text[p]); }
    }
    assert !WordAt(text, p, "rupees") by {
      if p + 6 <= |text| { assert Lower(text[p..p + 6])[0] == LowerChar(text[p]); }
    }
    assert !WordAt(text, p, "rupee") by {
      if p + 5 <= |text| { assert Lower(text[p..p + 5])[0] == LowerChar(text[p]); }
    }
    assert !WordAt(text, p, "inr") by {
      if p + 3 <= |text| { assert Lower(text[p..p + 3])[0] == LowerChar(text[p]); }
    }
  }

  /** No unit starts here: the unit group matches empty. */
  lemma NoUnit(atoms: seq<Atom>, text: string, p: nat)
    requires atoms != [] && atoms[0] == Unit && p < |text|
    requires LowerChar(text[p]) != 'r' && LowerChar(text[p]) != 'i'
    ensures Match(atoms, text, p) == Match(atoms[1..], text, p)
  {
    NoUnitAt(text, p);
    if Match(atoms[1..], text, p).Some? {
      FirstEnd(atoms, text, p, p, Match(atoms[1..], text, p).value);
    } else {
      assert Ends(atoms[0], text, p)[1..] == [];
      assert TryEnds(atoms, text, p, Ends(atoms[0], text, p)) == None;
    }
  }

  /** A word at `p`, then the rest. */
  lemma WordThen(atoms: seq<Atom>, text: string, p: nat, caps: seq<string>)
    requires atoms != [] && atoms[0].Word? && WordAt(text, p, atoms[0].w)
    requires Match(atoms[1..], text, p + |atoms[0].w|) == Some(caps)
    ensures Match(atoms, text, p) == Some(caps)
  {
    FirstEnd(atoms, text, p, p + |atoms[0].w|, caps);
  }

  /** `(\d+)` takes the whole run of digits `p..q` first. */
  lemma DigitsThen(atoms: seq<Atom>, text: string, p: nat, q: nat, caps: seq<string>)
    requires atoms != [] && atoms[0] == Number && p < q <= |text|
    requires (forall i :: p <= i < q ==> IsDigit(text[i])) && (q == |text| || !IsDigit(text[q]))
    requires Match(atoms[1..], text, q) == Some(caps)
    ensures Match(atoms, text, p) == Some([text[p..q]] + caps)
  {
    RunExact(text, p, q, IsDigit);
    FirstEnd(atoms, text, p, q, caps);
  }

  /** `(.+)` as the last atom takes the rest of the line. */
  lemma RestThen(atoms: seq<Atom>, text: string, p: nat)
    requires |atoms| == 1 && atoms[0] == Rest && p < |text|
    requires forall i :: p <= i < |text| ==> IsAny(text[i])
    ensures Match(atoms, text, p) == Some([text[p..]])
  {
    var none: seq<string> := [];
    RunExact(text, p, |text|, IsAny);
    assert Match(atoms[1..], text, |text|) == Some(none);
    FirstEnd(atoms, text, p, |text|, none);
    assert text[p..|text|] == text[p..];
    assert [text[p..]] + none == [text[p..]];
  }

  /** `text` is `verb N prep D` with single spaces, no unit, digits N at
      `|verb| + 1..q` and a line D that does not start with white space. */
  predicate PlainSentence(text: string, verb: string, prep: string, q: nat) {
    var v := |verb|;
    var r := q + 1 + |prep|;
    v + 1 < q && r + 1 < |text| && WordAt(text, 0, verb) && IsSpace(text[v])
    && (forall i :: v + 1 <= i < q ==> IsDigit(text[i]))
    && IsSpace(text[q]) && WordAt(text, q + 1, prep) && IsSpace(text[r]) && !IsSpace(text[r + 1])
    && (forall i :: r + 1 <= i < |text| ==> IsAny(text[i]))
  }

  /** After the preposition, `\s+(.+)` captures D. */
  lemma PlainRest(text: string, verb: string, prep: string, q: nat)
    requires PlainSentence(text, verb, prep, q)
    ensures Match(Sentence(verb, prep)[7..], text, q + 1 + |prep|) == Some([text[q + 2 + |prep|..]])
  {
    var A := Sentence(verb, prep);
    RestThen(A[8..], text, q + 2 + |prep|);
    OneSpace(A[7..], text, q + 1 + |prep|, [text[q + 2 + |prep|..]]);
  }

  /** From the space before the preposition, `\s+prep\s+(.+)` captures D;
      from the preposition itself it fails. */
  lemma PlainTail(text: string, verb: string, prep: string, q: nat)
    requires |prep| > 0 && !IsSpace(prep[0])
    requires PlainSentence(text, verb, prep, q)
    ensures Match(Sentence(verb, prep)[5..], text, q) == Some([text[q + 2 + |prep|..]])
  {
    var A := Sentence(verb, prep);
    var d := text[q + 2 + |prep|..];
    PlainRest(text, verb, prep, q);
    WordThen(A[6..], text, q + 1, [d]);
    assert LowerChar(text[q + 1]) == Lower(text[q + 1..q + 1 + |prep|])[0] == prep[0];
    OneSpace(A[5..], text, q, [d]);
    assert Match(A[5..], text, q) == Some([d]);
  }

  /** The greedy `\s*` first takes the space before the preposition; `\s+`
      then finds none, and `\s*` gives the space back. */
  lemma PlainUnit(text: string, verb: string, prep: string, q: nat)
    requires |prep| > 0 && prep[0] != 'r' && prep[0] != 'i' && !IsSpace(prep[0])
    requires PlainSentence(text, verb, prep, q)
    ensures Match(Sentence(verb, prep)[3..], text, q) == Some([text[q + 2 + |prep|..]])
  {
    var A := Sentence(verb, prep);
    var d := text[q + 2 + |prep|..];
    PlainTail(text, verb, prep, q);
    NoSpace(A[5..], text, q + 1);
    assert LowerChar(text[q + 1]) == Lower(text[q + 1..q + 1 + |prep|])[0] == prep[0];
    NoUnit(A[4..], text, q + 1);
    NoUnit(A[4..], text, q);
    GiveBackSpace(A[3..], text, q, [d]);
  }

  /** From the digits on, `(\d+)` captures N and the rest captures D. */
  lemma PlainDigits(text: string, verb: string, prep: string, q: nat)
    requires |prep| > 0 && prep[0] != 'r' && prep[0] != 'i' && !IsSpace(prep[0])
    requires PlainSentence(text, verb, prep, q)
    ensures Match(Sentence(verb, prep)[2..], text, |verb| + 1)
      == Some([text[|verb| + 1..q], text[q + 2 + |prep|..]])
  {
    var A := Sentence(verb, prep);
    var d := text[q + 2 + |prep|..];
    PlainUnit(text, verb, prep, q);
    DigitsThen(A[2..], text, |verb| + 1, q, [d]);
    assert [text[|verb| + 1..q]] + [d] == [text[|verb| + 1..q], d];
  }

  /** A word and one space at the start, then the rest. */
  lemma WordSpaceThen(atoms: seq<Atom>, text: string, caps: seq<string>)
    requires |atoms| >= 2 && atoms[0].Word? && atoms[1].Spaces?
    requires |atoms[0].w| + 1 < |text| && WordAt(text, 0, atoms[0].w)
    requires IsSpace(text[|atoms[0].w|]) && !IsSpace(text[|atoms[0].w| + 1])
    requires Match(atoms[2..], text, |atoms[0].w| + 1) == Some(caps)
    ensures Match(atoms, text, 0) == Some(caps)
  {
    assert atoms[1..][1..] == atoms[2..];
    OneSpace(atoms[1..], text, |atoms[0].w|, caps);
    WordThen(atoms, text, 0, caps);
  }

  /** A match at the start is the one `text.match` finds. */
  lemma FindAtStart(atoms: seq<Atom>, text: string, caps: seq<string>)
    requires Match(atoms, text, 0) == Some(caps)
    ensures Find(atoms, text) == Some(caps)
  {
  }

  /** A plain sentence matches at its start, with N and D captured. */
  lemma PlainAtStart(text: string, verb: string, prep: string, q: nat)
    requires |prep| > 0 && prep[0] != 'r' && prep[0] != 'i' && !IsSpace(prep[0])
    requires PlainSentence(text, verb, prep, q)
    ensures Match(Sentence(verb, prep), text, 0) == Some([text[|verb| + 1..q], text[q + 2 + |prep|..]])
  {
    PlainDigits(text, verb, prep, q);
    assert IsDigit(text[|verb| + 1]);
    WordSpaceThen(Sentence(verb, prep), text, [text[|verb| + 1..q], text[q + 2 + |prep|..]]);
  }

  /** `text.match` finds a plain sentence at the start of the text, with N
      and D captured. */
  lemma PlainSentenceMatch(text: string, verb: string, prep: string, q: nat)
    requires |prep| > 0 && prep[0] != 'r' && prep[0] != 'i' && !IsSpace(prep[0])
    requires PlainSentence(text, verb, prep, q)
    ensures Find(Sentence(verb, prep), text) == Some([text[|verb| + 1..q], text[q + 2 + |prep|..]])
  {
    PlainAtStart(text, verb, prep, q);
    FindAtStart(Sentence(verb, prep), text, [text[|verb| + 1..q], text[q + 2 + |prep|..]]);
  }
}
