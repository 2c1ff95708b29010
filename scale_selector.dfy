/**
 * The custom-scale editor of VotingScaleSelector.js: parsing a
 * comma-separated list into scale tokens, its three rejections, and the
 * configuration it hands to its `onScaleChange` callback.
 */
module ScaleSelector {
  import opened Wrappers
  import opened JsText
  import opened VotingScale

  const AllEmptyError: string := "Custom values cannot be all empty or just commas."
  const TooManyError: string := "Maximum 20 custom options allowed."
  const DuplicatesError: string := "Custom values should not contain duplicates."

  /** `.map(v => v.trim()).filter(v => v)`: the pieces trimmed, blank ones dropped, order kept. */
  function TrimmedNonBlank(pieces: seq<string>): (r: seq<string>)
    ensures |r| <= |pieces|
  {
    if pieces == [] then []
    else
      var rest := TrimmedNonBlank(pieces[1..]);
      var t := Trim(pieces[0]);
      if t != "" then [t] + rest else rest
  }

  /** Every token is non-empty and already trimmed. */
  lemma {:induction false} TokensAreTrimmed(pieces: seq<string>)
    ensures forall v :: v in TrimmedNonBlank(pieces) ==> v != "" && Trim(v) == v
  {
    if pieces != [] {
      TokensAreTrimmed(pieces[1..]);
      TrimIdempotent(pieces[0]);
      var rest, t := TrimmedNonBlank(pieces[1..]), Trim(pieces[0]);
      assert TrimmedNonBlank(pieces) == if t != "" then [t] + rest else rest;
      forall v | v in TrimmedNonBlank(pieces)
        ensures v != "" && Trim(v) == v
      {
        if v != t {
          assert v in rest;
        }
      }
    }
  }

  /** Trimming only removes characters. */
  lemma TrimAddsNothing(s: string, c: char)
    requires c !in s
    ensures c !in Trim(s)
  {
    var t := TrimStart(s);
    var r := TrimEnd(t);
    TrimStartFacts(s);
    TrimEndFacts(t);
    forall k | 0 <= k < |r|
      ensures r[k] != c
    {
      assert r[k] == t[k] == s[|s| - |t| + k];
    }
  }

  /** A character absent from every piece is absent from every token. */
  lemma {:induction false} TokensAvoid(pieces: seq<string>, c: char)
    requires forall p :: p in pieces ==> c !in p
    ensures forall v :: v in TrimmedNonBlank(pieces) ==> c !in v
  {
    if pieces != [] {
      assert pieces[0] in pieces;
      assert forall p :: p in pieces[1..] ==> p in pieces;
      TokensAvoid(pieces[1..], c);
      TrimAddsNothing(pieces[0], c);
      var rest, t := TrimmedNonBlank(pieces[1..]), Trim(pieces[0]);
      assert TrimmedNonBlank(pieces) == if t != "" then [t] + rest else rest;
      forall v | v in TrimmedNonBlank(pieces)
        ensures c !in v
      {
        if v != t {
          assert v in rest;
        }
      }
    }
  }

  /** The elements of a list, as `new Set(arr)` collects them. */
  function Elements(s: seq<string>): (r: set<string>)
    ensures forall x :: x in r <==> x in s
  {
    if s == [] then {} else Elements(s[..|s| - 1]) + {s[|s| - 1]}
  }

  predicate Distinct(s: seq<string>)
  {
    forall i, j :: 0 <= i < j < |s| ==> s[i] != s[j]
  }

  /** `new Set(arr).size !== arr.length` holds exactly when some entry repeats. */
  lemma {:induction false} SetSizeDetectsDuplicates(s: seq<string>)
    ensures |Elements(s)| <= |s|
    ensures |Elements(s)| == |s| <==> Distinct(s)
  {
    if s != [] {
      var init, x := s[..|s| - 1], s[|s| - 1];
      SetSizeDetectsDuplicates(init);
      assert forall k :: 0 <= k < |init| ==> init[k] == s[k];
      if x in init {
        var k :| 0 <= k < |init| && init[k] == x;
        assert Elements(s) == Elements(init);
        assert s[k] == s[|s| - 1];
      } else {
        assert |Elements(s)| == |Elements(init)| + 1;
        if Distinct(init) {
          forall i, j | 0 <= i < j < |s|
            ensures s[i] != s[j]
          {
            if j == |s| - 1 {
              assert s[i] == init[i];
            } else {
              assert s[i] == init[i] && s[j] == init[j];
            }
          }
        } else {
          var i, j :| 0 <= i < j < |init| && init[i] == init[j];
          assert s[i] == s[j];
        }
      }
    }
  }

  /** The outcome of validateAndParseCustomValues: the tokens, or the message it shows. */
  datatype Parsed = Accepted(values: seq<string>) | Rejected(error: string)

  /** The tokens of an input, before any check. */
  function Tokens(valuesStr: string): seq<string>
  {
    TrimmedNonBlank(Split(valuesStr, ','))
  }

  /**
   * validateAndParseCustomValues: split on commas, trim, drop blanks; then
   * reject a non-blank input with no token, more than 20 tokens, or a
   * repeated token, in that order. A blank input is accepted as no tokens.
   */
  function ValidateAndParse(valuesStr: string): Parsed
  {
    var arr := Tokens(valuesStr);
    if |arr| == 0 && Trim(valuesStr) != "" then Rejected(AllEmptyError)
    else if |arr| > MaxVotingOptions then Rejected(TooManyError)
    else if |Elements(arr)| != |arr| then Rejected(DuplicatesError)
    else Accepted(arr)
  }

  /**
   * The checks and their order: each message is given exactly when its check
   * is the first to fail, and an accepted list is duplicate-free, at most 20
   * long, and made of non-empty trimmed tokens holding no comma.
   */
  lemma ParseOutcomes(valuesStr: string)
    ensures var arr := Tokens(valuesStr);
            var r := ValidateAndParse(valuesStr);
            && (r == Rejected(AllEmptyError) <==> arr == [] && !AllWhitespace(valuesStr))
            && (r == Rejected(TooManyError) <==> |arr| > MaxVotingOptions)
            && (r == Rejected(DuplicatesError) <==>
                  !(arr == [] && !AllWhitespace(valuesStr)) && |arr| <= MaxVotingOptions && !Distinct(arr))
            && (r.Accepted? <==> (arr != [] || AllWhitespace(valuesStr)) && |arr| <= MaxVotingOptions && Distinct(arr))
            && (r.Accepted? ==>
                  && r.values == arr
                  && Distinct(r.values)
                  && |r.values| <= MaxVotingOptions
                  && forall v :: v in r.values ==> v != "" && Trim(v) == v && ',' !in v)
  {
    var arr := Tokens(valuesStr);
    SetSizeDetectsDuplicates(arr);
    TrimCharacterized(valuesStr);
    TokensAvoid(Split(valuesStr, ','), ',');
    TokensAreTrimmed(Split(valuesStr, ','));
  }

  /** Trim on the pieces of the example below. */
  lemma TrimExamples()
    ensures Trim("  A  ") == "A" && Trim(" B ") == "B" && Trim("") == "" && Trim(" C  ") == "C"
  {
    TrimExampleA();
    TrimExampleB();
    TrimExampleC();
  }

  lemma TrimExampleA()
    ensures Trim("  A  ") == "A"
  {
    assert !IsWhitespace('A');
    TrimPadded("A", 2, 2);
    assert Spaces(2) == "  ";
    assert Spaces(2) + "A" + Spaces(2) == "  A  ";
  }

  lemma TrimExampleB()
    ensures Trim(" B ") == "B"
  {
    assert !IsWhitespace('B');
    TrimPadded("B", 1, 1);
    assert Spaces(1) == " ";
    assert Spaces(1) + "B" + Spaces(1) == " B ";
  }

  lemma TrimExampleC()
    ensures Trim(" C  ") == "C"
  {
    assert !IsWhitespace('C');
    TrimPadded("C", 1, 2);
    assert Spaces(1) == " " && Spaces(2) == "  ";
    assert Spaces(1) + "C" + Spaces(2) == " C  ";
  }

  /** A letter padded with spaces on both sides trims back to the letter. */
  lemma TrimPadded(x: string, before: nat, after: nat)
    requires |x| == 1 && !IsWhitespace(x[0])
    ensures Trim(Spaces(before) + x + Spaces(after)) == x
  {
    TrimStartSpaces(before, x + Spaces(after));
    assert Spaces(before) + x + Spaces(after) == Spaces(before) + (x + Spaces(after));
    TrimEndSpaces(x, after);
  }

  function Spaces(n: nat): (r: string)
    ensures |r| == n && forall k :: 0 <= k < n ==> r[k] == ' '
  {
    if n == 0 then "" else " " + Spaces(n - 1)
  }

  lemma {:induction false} TrimStartSpaces(n: nat, rest: string)
    requires rest != [] && !IsWhitespace(rest[0])
    ensures TrimStart(Spaces(n) + rest) == rest
  {
    var s := Spaces(n) + rest;
    if n > 0 {
      assert s[0] == ' ' && IsWhitespace(s[0]);
      assert s[1..] == Spaces(n - 1) + rest;
      TrimStartSpaces(n - 1, rest);
    }
  }

  lemma {:induction false} TrimEndSpaces(x: string, n: nat)
    requires x != [] && !IsWhitespace(x[|x| - 1])
    ensures TrimEnd(x + Spaces(n)) == x
  {
    var s := x + Spaces(n);
    if n > 0 {
      assert s[|s| - 1] == ' ' && IsWhitespace(s[|s| - 1]);
      assert Spaces(n) == Spaces(n - 1) + " ";
      assert (x + Spaces(n))[..|x| + n - 1] == x + Spaces(n - 1);
      TrimEndSpaces(x, n - 1);
    }
  }

  /** Surrounding spaces and an empty piece disappear: "  A  , B ,, C  " gives A, B and C. */
  lemma ParseExample()
    ensures ValidateAndParse("  A  , B ,, C  ") == Accepted(["A", "B", "C"])
  {
    ExampleTokens();
    AcceptsABC("  A  , B ,, C  ");
  }

  lemma AcceptsABC(valuesStr: string)
    requires Tokens(valuesStr) == ["A", "B", "C"]
    ensures ValidateAndParse(valuesStr) == Accepted(["A", "B", "C"])
  {
    assert Distinct(["A", "B", "C"]);
    AcceptsDistinctTokens(valuesStr);
  }

  /** Distinct tokens, at least one and at most 20 of them, are accepted as they are. */
  lemma AcceptsDistinctTokens(valuesStr: string)
    requires var arr := Tokens(valuesStr); arr != [] && |arr| <= MaxVotingOptions && Distinct(arr)
    ensures ValidateAndParse(valuesStr) == Accepted(Tokens(valuesStr))
  {
    SetSizeDetectsDuplicates(Tokens(valuesStr));
  }

  lemma ExampleTokens()
    ensures Tokens("  A  , B ,, C  ") == ["A", "B", "C"]
  {
    ExamplePieces();
    SplitJoin(["  A  ", " B ", "", " C  "], ',');
    TrimExamples();
    FourPieces("  A  ", " B ", "", " C  ");
  }

  lemma ExamplePieces()
    ensures Join(["  A  ", " B ", "", " C  "], ',') == "  A  , B ,, C  "
    ensures forall p :: p in ["  A  ", " B ", "", " C  "] ==> ',' !in p
  {
    var pieces := ["  A  ", " B ", "", " C  "];
    assert Join(pieces[3..], ',') == " C  ";
    assert Join(pieces[2..], ',') == ", C  ";
    assert Join(pieces[1..], ',') == " B ,, C  ";
  }

  /** Four pieces of which the third is blank give the other three, trimmed, when none of them is blank. */
  lemma FourPieces(a: string, b: string, c: string, d: string)
    requires Trim(a) != "" && Trim(b) != "" && Trim(c) == "" && Trim(d) != ""
    ensures TrimmedNonBlank([a, b, c, d]) == [Trim(a), Trim(b), Trim(d)]
  {
    TokensCons(d, []);
    assert [d] == [d] + [];
    TokensCons(c, [d]);
    assert [c, d] == [c] + [d];
    TokensCons(b, [c, d]);
    assert [b, c, d] == [b] + [c, d];
    TokensCons(a, [b, c, d]);
    assert [a, b, c, d] == [a] + [b, c, d];
  }

  /** One step of the token pipeline. */
  lemma TokensCons(p: string, rest: seq<string>)
    ensures TrimmedNonBlank([p] + rest) ==
            if Trim(p) != "" then [Trim(p)] + TrimmedNonBlank(rest) else TrimmedNonBlank(rest)
  {
    assert ([p] + rest)[1..] == rest;
  }

  /** A piece of an all-blank string is itself blank. */
  lemma BlankPieces(valuesStr: string)
    requires AllWhitespace(valuesStr)
    ensures forall p :: p in Split(valuesStr, ',') ==> Trim(p) == ""
  {
    forall p | p in Split(valuesStr, ',')
      ensures Trim(p) == ""
    {
      assert PieceOf(p, valuesStr, ',');
      assert AllWhitespace(p) by {
        forall k | 0 <= k < |p|
          ensures IsWhitespace(p[k])
        {
          assert p[k] in p;
          var m :| 0 <= m < |valuesStr| && valuesStr[m] == p[k];
        }
      }
      TrimCharacterized(p);
    }
  }

  /** Pieces that all trim to nothing leave no token. */
  lemma {:induction false} NoTokensFromBlankPieces(pieces: seq<string>)
    requires forall p :: p in pieces ==> Trim(p) == ""
    ensures TrimmedNonBlank(pieces) == []
  {
    if pieces != [] {
      assert pieces[0] in pieces;
      assert forall p :: p in pieces[1..] ==> p in pieces;
      NoTokensFromBlankPieces(pieces[1..]);
    }
  }

  /** Clearing the field, or leaving only whitespace, is accepted as the empty list. */
  lemma BlankInputIsEmptyList(valuesStr: string)
    requires AllWhitespace(valuesStr)
    ensures ValidateAndParse(valuesStr) == Accepted([])
  {
    BlankPieces(valuesStr);
    NoTokensFromBlankPieces(Split(valuesStr, ','));
    TrimCharacterized(valuesStr);
  }

  /**
   * An accepted list survives the server's resolution unchanged:
   * it is within the cap, so nothing is cut, and the configuration is kept.
   */
  lemma AcceptedListResolvesToItself(valuesStr: string)
    requires ValidateAndParse(valuesStr).Accepted?
    ensures var vs := ValidateAndParse(valuesStr).values;
            ResolveVotingScale(Some(Custom(Some(vs)))) == ResolvedScale(Custom(Some(vs)), vs)
  {
    ParseOutcomes(valuesStr);
  }

  /** The selector's state: the error it shows and every configuration passed to `onScaleChange`. */
  class Selector {
    var customError: string
    var scaleChanges: seq<ScaleConfig>

    constructor ()
      ensures customError == "" && scaleChanges == []
    {
      customError := "";
      scaleChanges := [];
    }

    /** validateAndParseCustomValues: the tokens, or null with the message shown. */
    method ValidateAndParseCustomValues(valuesStr: string) returns (arr: Option<seq<string>>)
      modifies this
      ensures scaleChanges == old(scaleChanges)
      ensures match ValidateAndParse(valuesStr)
              case Accepted(vs) => arr == Some(vs) && customError == ""
              case Rejected(e) => arr == None && customError == e
    {
      var parsed := Tokens(valuesStr);
      if |parsed| == 0 && Trim(valuesStr) != "" {
        customError := AllEmptyError;
        return None;
      }
      if |parsed| > MaxVotingOptions {
        customError := TooManyError;
        return None;
      }
      if |Elements(parsed)| != |parsed| {
        customError := DuplicatesError;
        return None;
      }
      customError := "";
      arr := Some(parsed);
    }

    /**
     * triggerScaleChange: a preset name is passed on unchecked; custom text
     * is passed on only when it parses, and an empty list (an array, so
     * truthy) counts as parsed.
     */
    method TriggerScaleChange(kind: string, value: string)
      modifies this
      ensures kind == "preset" ==> scaleChanges == old(scaleChanges) + [Preset(value)] && customError == old(customError)
      ensures kind != "preset" ==>
                match ValidateAndParse(value)
                case Accepted(vs) => scaleChanges == old(scaleChanges) + [Custom(Some(vs))] && customError == ""
                case Rejected(e) => scaleChanges == old(scaleChanges) && customError == e
    {
      var newConfig: ScaleConfig;
      if kind == "preset" {
        newConfig := Preset(value);
      } else {
        var parsedValues := ValidateAndParseCustomValues(value);
        if parsedValues.None? {
          return;
        }
        newConfig := Custom(Some(parsedValues.value));
      }
      scaleChanges := scaleChanges + [newConfig];
    }
  }
}
