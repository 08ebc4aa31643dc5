/** The argument validators of the server (the type guards at the top of src/index.ts) and
    the date pattern that the onThisDay validator shares with the advertised tool schema. */
module Validation {
  import opened Js

  // ---------------------------------------------------------------------------
  // Anchored patterns whose every quantifier is a fixed count

  datatype Atom = AnyDigit | Literal(c: char)

  /** An atom repeated exactly `count` times (`\d{4}`, or `-` for a count of one). */
  datatype Piece = Piece(atom: Atom, count: nat)

  type Pattern = seq<Piece>

  /** `\d` matches the ASCII digits only (the pattern carries no `u` flag). */
  predicate AtomMatches(a: Atom, c: char) {
    match a
    case AnyDigit => IsDecimalDigit(c)
    case Literal(l) => c == l
  }

  /** `/^p$/.test(s)`: the whole of s, from its first character to its last, matches p. */
  predicate FullMatch(p: Pattern, s: string)
    decreases |p|
  {
    if p == [] then s == []
    else
      && p[0].count <= |s|
      && (forall i :: 0 <= i < p[0].count ==> AtomMatches(p[0].atom, s[i]))
      && FullMatch(p[1..], s[p[0].count..])
  }

  /** `^\d{4}-\d{2}-\d{2}$` */
  const DatePattern: Pattern :=
    [Piece(AnyDigit, 4), Piece(Literal('-'), 1), Piece(AnyDigit, 2), Piece(Literal('-'), 1), Piece(AnyDigit, 2)]

  function AtomSource(a: Atom): string {
    match a
    case AnyDigit => "\\d"
    case Literal(c) => [c]
  }

  function PieceSource(p: Piece): string {
    AtomSource(p.atom) + (if p.count == 1 then "" else "{" + DecimalString(p.count) + "}")
  }

  function PiecesSource(p: Pattern): string
    decreases |p|
  {
    if p == [] then "" else PieceSource(p[0]) + PiecesSource(p[1..])
  }

  /** The text of an anchored pattern in JavaScript regular-expression syntax. */
  function PatternSource(p: Pattern): string {
    "^" + PiecesSource(p) + "$"
  }

  /** The pattern string advertised for `date` in the onThisDay input schema (the value of
      the literal "^\\d{4}-\\d{2}-\\d{2}$"), which is also the text of the validator's
      regular-expression literal. */
  const DatePatternSource: string := "^\\d{4}-\\d{2}-\\d{2}$"

  /** The pattern the validator tests is the one whose text the schema advertises. */
  lemma DatePieceSources()
    ensures PieceSource(Piece(AnyDigit, 4)) == "\\d{4}"
    ensures PieceSource(Piece(AnyDigit, 2)) == "\\d{2}"
    ensures PieceSource(Piece(Literal('-'), 1)) == "-"
  {
    assert DecimalString(4) == "4";
    assert DecimalString(2) == "2";
  }

  lemma DatePiecesSource()
    ensures PiecesSource(DatePattern) == "\\d{4}" + "-" + "\\d{2}" + "-" + "\\d{2}"
  {
    DatePieceSources();
    var digits2, dash := Piece(AnyDigit, 2), Piece(Literal('-'), 1);
    assert [digits2][1..] == [];
    assert [dash, digits2][1..] == [digits2];
    assert [digits2, dash, digits2][1..] == [dash, digits2];
    assert [dash, digits2, dash, digits2][1..] == [digits2, dash, digits2];
    assert DatePattern[1..] == [dash, digits2, dash, digits2];
  }

  lemma DateSourceConcat()
    ensures "^" + ("\\d{4}" + "-" + "\\d{2}" + "-" + "\\d{2}") + "$" == DatePatternSource
  {
  }

  lemma DatePatternSourceText()
    ensures PatternSource(DatePattern) == DatePatternSource
  {
    DatePiecesSource();
    DateSourceConcat();
  }

  /** Four digits, a dash, two digits, a dash, two digits, and nothing else. */
  predicate DateShaped(s: string) {
    && |s| == 10
    && IsDecimalDigit(s[0]) && IsDecimalDigit(s[1]) && IsDecimalDigit(s[2]) && IsDecimalDigit(s[3])
    && s[4] == '-'
    && IsDecimalDigit(s[5]) && IsDecimalDigit(s[6])
    && s[7] == '-'
    && IsDecimalDigit(s[8]) && IsDecimalDigit(s[9])
  }

  /** The number of characters a pattern matches. */
  function TotalCount(p: Pattern): nat
    decreases |p|
  {
    if p == [] then 0 else p[0].count + TotalCount(p[1..])
  }

  /** A fixed-count pattern only matches strings of its own length. */
  lemma {:induction false} FullMatchLength(p: Pattern, s: string)
    ensures FullMatch(p, s) ==> |s| == TotalCount(p)
    decreases |p|
  {
    if p != [] && FullMatch(p, s) {
      FullMatchLength(p[1..], s[p[0].count..]);
    }
  }

  /** The date regular expression accepts exactly the date-shaped strings. */
  lemma DatePatternMatches(s: string)
    ensures FullMatch(DatePattern, s) <==> DateShaped(s)
  {
    var p1, p2, p3, p4 := DatePattern[1..], DatePattern[2..], DatePattern[3..], DatePattern[4..];
    assert p1 == DatePattern[1..] && p1[1..] == p2 && p2[1..] == p3 && p3[1..] == p4 && p4[1..] == [];
    if |s| >= 10 {
      assert s[4..][1..] == s[5..];
      assert s[5..][2..] == s[7..];
      assert s[7..][1..] == s[8..];
      assert s[8..][2..] == s[10..];
      calc {
        FullMatch(DatePattern, s);
      ==
        IsDecimalDigit(s[0]) && IsDecimalDigit(s[1]) && IsDecimalDigit(s[2]) && IsDecimalDigit(s[3])
        && FullMatch(p1, s[4..]);
      ==
        IsDecimalDigit(s[0]) && IsDecimalDigit(s[1]) && IsDecimalDigit(s[2]) && IsDecimalDigit(s[3])
        && s[4] == '-' && FullMatch(p2, s[5..]);
      ==
        IsDecimalDigit(s[0]) && IsDecimalDigit(s[1]) && IsDecimalDigit(s[2]) && IsDecimalDigit(s[3])
        && s[4] == '-' && IsDecimalDigit(s[5]) && IsDecimalDigit(s[6]) && FullMatch(p3, s[7..]);
      ==
        IsDecimalDigit(s[0]) && IsDecimalDigit(s[1]) && IsDecimalDigit(s[2]) && IsDecimalDigit(s[3])
        && s[4] == '-' && IsDecimalDigit(s[5]) && IsDecimalDigit(s[6]) && s[7] == '-'
        && FullMatch(p4, s[8..]);
      ==
        IsDecimalDigit(s[0]) && IsDecimalDigit(s[1]) && IsDecimalDigit(s[2]) && IsDecimalDigit(s[3])
        && s[4] == '-' && IsDecimalDigit(s[5]) && IsDecimalDigit(s[6]) && s[7] == '-'
        && IsDecimalDigit(s[8]) && IsDecimalDigit(s[9]) && s[10..] == [];
      ==
        DateShaped(s);
      }
    } else {
      FullMatchLength(DatePattern, s);
      assert TotalCount(p4) == 2;
      assert TotalCount(DatePattern) == 10;
    }
  }

  // ---------------------------------------------------------------------------
  // The four validators

  /** `isValidOnThisDayArgs` */
  predicate IsValidOnThisDayArgs(args: JsValue) {
    && IsNonNullObject(args)
    && Prop(args, "date").JString?
    && FullMatch(DatePattern, Prop(args, "date").s)
  }

  /** `typeof args === "object" && args !== null && typeof args[key] === "string"
      && args[key].trim() !== ""`, the shape shared by the three other validators. */
  predicate HasNonBlankString(args: JsValue, key: string) {
    && IsNonNullObject(args)
    && Prop(args, key).JString?
    && Trim(Prop(args, key).s) != ""
  }

  /** `isValidFindPageArgs` */
  predicate IsValidFindPageArgs(args: JsValue) {
    HasNonBlankString(args, "query")
  }

  /** `isValidGetPageArgs` */
  predicate IsValidGetPageArgs(args: JsValue) {
    HasNonBlankString(args, "title")
  }

  /** `isValidGetImagesForPageArgs`: `limit` is not looked at. */
  predicate IsValidGetImagesForPageArgs(args: JsValue) {
    HasNonBlankString(args, "title")
  }

  /** A string with a character that `trim` does not remove. */
  ghost predicate NonBlank(s: string) {
    exists i :: 0 <= i < |s| && !IsWhitespace(s[i])
  }

  /** The argument bag is a JSON object whose `key` is a string holding a non-whitespace
      character. */
  ghost predicate NonBlankField(args: JsValue, key: string) {
    args.JObject? && key in args.fields && args.fields[key].JString? && NonBlank(args.fields[key].s)
  }

  lemma HasNonBlankStringExactly(args: JsValue, key: string)
    ensures HasNonBlankString(args, key) <==> NonBlankField(args, key)
  {
    if IsNonNullObject(args) && Prop(args, key).JString? {
      TrimNonEmpty(Prop(args, key).s);
    }
  }

  /** The date validator accepts exactly the JSON objects whose `date` is a date-shaped
      string; null, arrays, non-objects, a missing or non-string `date` are rejected. */
  lemma OnThisDayArgsAccepted(args: JsValue)
    ensures IsValidOnThisDayArgs(args) <==>
      args.JObject? && "date" in args.fields && args.fields["date"].JString?
      && DateShaped(args.fields["date"].s)
  {
    if Prop(args, "date").JString? {
      DatePatternMatches(Prop(args, "date").s);
    }
  }

  /** findPage accepts exactly an object whose `query` is a string that is not blank. */
  lemma FindPageArgsAccepted(args: JsValue)
    ensures IsValidFindPageArgs(args) <==> NonBlankField(args, "query")
  {
    HasNonBlankStringExactly(args, "query");
  }

  /** getPage accepts exactly an object whose `title` is a string that is not blank. */
  lemma GetPageArgsAccepted(args: JsValue)
    ensures IsValidGetPageArgs(args) <==> NonBlankField(args, "title")
  {
    HasNonBlankStringExactly(args, "title");
  }

  /** getImagesForPage accepts exactly an object whose `title` is a string that is not
      blank, whatever its `limit` holds or whether it has one. */
  lemma GetImagesForPageArgsAccepted(args: JsValue, limit: JsValue)
    ensures IsValidGetImagesForPageArgs(args) <==> NonBlankField(args, "title")
    ensures args.JObject? ==>
      (IsValidGetImagesForPageArgs(JObject(args.fields["limit" := limit]))
       <==> IsValidGetImagesForPageArgs(args))
  {
    HasNonBlankStringExactly(args, "title");
    if args.JObject? {
      HasNonBlankStringExactly(JObject(args.fields["limit" := limit]), "title");
    }
  }
}
