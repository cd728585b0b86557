/** The dot-notation pass over templates: `{{user.name}}` becomes `{{.user.name}}`. */
module DotNotation {
  import opened Wrappers
  import Conditions

  // ----- The pattern -----

  predicate IsBlank(c: char) {
    c == ' ' || c == '\t' || c == '\n' || c == '\r' || c == '\U{000C}'
  }

  predicate IsIdStart(c: char) {
    'a' <= c <= 'z' || 'A' <= c <= 'Z' || c == '_'
  }

  predicate IsIdChar(c: char) {
    IsIdStart(c) || '0' <= c <= '9'
  }

  predicate IsPathChar(c: char) {
    IsIdChar(c) || c == '.'
  }

  predicate IsIdentifier(s: string) {
    s != "" && IsIdStart(s[0]) && forall c | c in s :: IsIdChar(c)
  }

  /** Two or more identifiers with dots between them. */
  predicate IsPath(s: string) {
    |Conditions.Split(s)| >= 2 && forall part | part in Conditions.Split(s) :: IsIdentifier(part)
  }

  ghost predicate IsStart(c: char) {
    'a' <= c <= 'z' || 'A' <= c <= 'Z' || c == '_'
  }

  ghost predicate IsBodyAt(s: string, i: nat)
    requires i < |s|
  {
    if s[i] == '.' then i + 1 < |s| && IsStart(s[i + 1]) else IsStart(s[i]) || '0' <= s[i] <= '9'
  }

  /** Letters, digits and underscores, and dots that come before a letter or an underscore. */
  ghost predicate IsBody(s: string) {
    forall i: nat | i < |s| :: IsBodyAt(s, i)
  }

  ghost predicate AllIdChars(s: string) {
    forall c | c in s :: IsIdChar(c)
  }

  ghost predicate AllIdentifiers(parts: seq<string>) {
    forall part | part in parts :: IsIdentifier(part)
  }

  lemma OneMorePart(part: string, parts: seq<string>)
    ensures AllIdentifiers([part] + parts) <==> IsIdentifier(part) && AllIdentifiers(parts)
    ensures IsIdentifier(part) <==> part != "" && IsIdStart(part[0]) && AllIdChars(part)
  {
    if AllIdentifiers([part] + parts) {
      assert ([part] + parts)[0] in [part] + parts;
      assert forall x | x in parts :: x in [part] + parts;
    }
  }

  lemma OneMoreChar(c: char, s: string)
    ensures AllIdChars([c] + s) <==> IsIdChar(c) && AllIdChars(s)
  {
    if AllIdChars([c] + s) {
      assert ([c] + s)[0] in [c] + s;
      assert forall x | x in s :: x in [c] + s;
    }
  }

  lemma FirstPart(s: string)
    ensures var part := Conditions.Split(s)[0];
            if s == "" || s[0] == '.' then part == "" else part != "" && part[0] == s[0]
    ensures |Conditions.Split(s)| >= 2 <==> '.' in s
  {
  }

  lemma BodyNext(s: string)
    requires s != ""
    ensures IsBody(s) <==> IsBodyAt(s, 0) && IsBody(s[1..])
  {
    forall i: nat | i < |s| - 1
      ensures IsBodyAt(s[1..], i) <==> IsBodyAt(s, i + 1)
    {
    }
    if IsBodyAt(s, 0) && IsBody(s[1..]) {
      forall i: nat | i < |s|
        ensures IsBodyAt(s, i)
      {
        assert i > 0 ==> IsBodyAt(s[1..], i - 1);
      }
    }
  }

  lemma {:induction false} BodyIff(s: string)
    ensures IsBody(s) <==> AllIdChars(Conditions.Split(s)[0]) && AllIdentifiers(Conditions.Split(s)[1..])
  {
    if s != "" {
      var parts := Conditions.Split(s[1..]);
      BodyIff(s[1..]);
      BodyNext(s);
      FirstPart(s[1..]);
      if s[0] == '.' {
        assert Conditions.Split(s)[1..] == parts;
        assert parts == [parts[0]] + parts[1..];
        OneMorePart(parts[0], parts[1..]);
      } else {
        assert Conditions.Split(s)[1..] == parts[1..];
        OneMoreChar(s[0], parts[0]);
      }
    }
  }

  /** A path, character by character. */
  lemma PathIff(s: string)
    ensures IsPath(s) <==> s != "" && IsStart(s[0]) && '.' in s && IsBody(s)
  {
    BodyIff(s);
    FirstPart(s);
    var parts := Conditions.Split(s);
    assert parts == [parts[0]] + parts[1..];
    OneMorePart(parts[0], parts[1..]);
  }

  /** A piece of text in double braces; `dotted` says whether a dot stands before the path. */
  datatype Token = Token(lead: string, dotted: bool, path: string, trail: string) {
    predicate Valid() {
      && (forall c | c in lead :: IsBlank(c))
      && IsPath(path)
      && (forall c | c in trail :: IsBlank(c))
    }

    function Body(): string {
      if dotted then "." + path else path
    }

    function Text(): string {
      "{{" + (lead + (Body() + (trail + "}}")))
    }

    /** The same token with the dot put in or taken out. */
    function Flip(): Token {
      this.(dotted := !dotted)
    }
  }

  /** The longest first part of `s` made of characters that satisfy `p`, and what follows it. */
  function Cut(s: string, p: char -> bool): (r: (string, string))
    ensures s == r.0 + r.1
    ensures forall c | c in r.0 :: p(c)
    ensures r.1 != "" ==> !p(r.1[0])
  {
    if s != "" && p(s[0]) then
      var (run, rest) := Cut(s[1..], p);
      ([s[0]] + run, rest)
    else ("", s)
  }

  lemma {:induction false} CutOf(a: string, b: string, p: char -> bool)
    requires forall c | c in a :: p(c)
    requires b == "" || !p(b[0])
    ensures Cut(a + b, p) == (a, b)
  {
    if a == "" {
      assert a + b == b;
    } else {
      assert a[0] in a;
      assert (a + b)[1..] == a[1..] + b;
      assert a == [a[0]] + a[1..];
      CutOf(a[1..], b, p);
    }
  }

  /** The token of the wanted form at the very start of `s`, if there is one. */
  function Parse(s: string, dotted: bool): Option<Token> {
    if !("{{" <= s) then None
    else
      var (lead, afterLead) := Cut(s[2..], IsBlank);
      var (body, afterBody) := Cut(afterLead, IsPathChar);
      var (trail, afterTrail) := Cut(afterBody, IsBlank);
      if !("}}" <= afterTrail) then None
      else if dotted then
        if "." <= body && IsPath(body[1..]) then Some(Token(lead, true, body[1..], trail)) else None
      else
        if IsPath(body) then Some(Token(lead, false, body, trail)) else None
  }

  lemma {:induction false} CharsOfJoin(parts: seq<string>)
    requires parts != [] && forall part | part in parts :: IsIdentifier(part)
    ensures forall c | c in Conditions.Join(parts) :: IsPathChar(c)
    ensures parts[0] <= Conditions.Join(parts)
  {
    assert parts[0] in parts;
    if |parts| > 1 {
      assert forall part | part in parts[1..] :: part in parts;
      CharsOfJoin(parts[1..]);
    }
  }

  /** A path starts like an identifier and has no brace, blank or leading dot in it. */
  lemma CharsOfPath(path: string)
    requires IsPath(path)
    ensures path != "" && IsIdStart(path[0]) && forall c | c in path :: IsPathChar(c)
  {
    Conditions.SplitJoin(path);
    CharsOfJoin(Conditions.Split(path));
    assert Conditions.Split(path)[0] in Conditions.Split(path);
  }

  lemma CharsOfToken(t: Token)
    requires t.Valid()
    ensures t.Body() != "" && IsPathChar(t.Body()[0])
    ensures forall c | c in t.Body() :: IsPathChar(c)
    ensures forall c | c in t.lead + (t.Body() + (t.trail + "}}")) :: c != '{'
  {
    CharsOfPath(t.path);
  }

  lemma TextThen(t: Token, rest: string)
    ensures t.Text() + rest == "{{" + (t.lead + (t.Body() + (t.trail + ("}}" + rest))))
  {
  }

  /** The parser finds exactly the tokens that the text starts with. */
  lemma ParseIff(s: string, t: Token)
    ensures Parse(s, t.dotted) == Some(t) <==> t.Valid() && t.Text() <= s
  {
    if t.Valid() && t.Text() <= s {
      ParseText(t, s[|t.Text()|..]);
      assert s == t.Text() + s[|t.Text()|..];
    }
    if Parse(s, t.dotted) == Some(t) {
      ParsedText(s, t);
    }
  }

  lemma ParseText(t: Token, rest: string)
    requires t.Valid()
    ensures Parse(t.Text() + rest, t.dotted) == Some(t)
  {
    CharsOfToken(t);
    TextThen(t, rest);
    var afterBody := t.trail + ("}}" + rest);
    var afterLead := t.Body() + afterBody;
    assert ("{{" + (t.lead + afterLead))[2..] == t.lead + afterLead;
    if t.trail != "" {
      assert t.trail[0] in t.trail;
    }
    assert afterBody[0] == if t.trail != "" then t.trail[0] else '}';
    CutOf(t.lead, afterLead, IsBlank);
    CutOf(t.Body(), afterBody, IsPathChar);
    CutOf(t.trail, "}}" + rest, IsBlank);
    assert "}}" <= "}}" + rest;
    assert ("." + t.path)[1..] == t.path;
    assert t.Text() + rest == "{{" + (t.lead + afterLead);
  }

  lemma ParsedText(s: string, t: Token)
    requires Parse(s, t.dotted) == Some(t)
    ensures t.Valid() && t.Text() <= s
  {
    var (lead, afterLead) := Cut(s[2..], IsBlank);
    var (body, afterBody) := Cut(afterLead, IsPathChar);
    var (trail, afterTrail) := Cut(afterBody, IsBlank);
    assert body == t.Body();
    assert afterTrail == "}}" + afterTrail[2..];
    TextThen(t, afterTrail[2..]);
    assert s == "{{" + s[2..];
  }

  // ----- The rewriting pass -----

  /** Leftmost, non-overlapping replacement: every token of the wanted form is flipped, and every
      other character is copied. */
  function Rewrite(s: string, dotted: bool): string {
    if s == "" then ""
    else
      var t := Parse(s, dotted);
      if t.Some? then
        ParsedText(s, t.value);
        t.value.Flip().Text() + Rewrite(s[|t.value.Text()|..], dotted)
      else [s[0]] + Rewrite(s[1..], dotted)
  }

  /** How many tokens the pass replaces. */
  function Count(s: string, dotted: bool): nat {
    if s == "" then 0
    else
      var t := Parse(s, dotted);
      if t.Some? then
        ParsedText(s, t.value);
        1 + Count(s[|t.value.Text()|..], dotted)
      else Count(s[1..], dotted)
  }

  /** preprocessDotNotation */
  function Preprocess(s: string): string {
    Rewrite(s, false)
  }

  /** A text cut up into characters that are copied and tokens that are replaced. */
  datatype Piece = Copied(c: char) | Replaced(token: Token)

  function Pieces(s: string, dotted: bool): seq<Piece> {
    if s == "" then []
    else
      var t := Parse(s, dotted);
      if t.Some? then
        ParsedText(s, t.value);
        [Replaced(t.value)] + Pieces(s[|t.value.Text()|..], dotted)
      else [Copied(s[0])] + Pieces(s[1..], dotted)
  }

  /** The text of the pieces, with the tokens as they are or flipped. */
  function Joined(pieces: seq<Piece>, flipped: bool): string {
    if pieces == [] then ""
    else
      var first := if pieces[0].Copied? then [pieces[0].c]
                   else if flipped then pieces[0].token.Flip().Text() else pieces[0].token.Text();
      first + Joined(pieces[1..], flipped)
  }

  /** Every token is of the wanted form, and a character is copied only where no such token starts. */
  ghost predicate Leftmost(pieces: seq<Piece>, dotted: bool) {
    pieces == [] ||
    (&& (if pieces[0].Copied? then Parse(Joined(pieces, false), dotted).None?
         else pieces[0].token.Valid() && pieces[0].token.dotted == dotted)
     && Leftmost(pieces[1..], dotted))
  }

  /** The pass cuts the text up from the left into such pieces and flips the tokens; all the rest of the
      text stays as it is and where it is. */
  lemma {:induction false} PassFlipsTokens(s: string, dotted: bool)
    ensures Joined(Pieces(s, dotted), false) == s
    ensures Joined(Pieces(s, dotted), true) == Rewrite(s, dotted)
    ensures Leftmost(Pieces(s, dotted), dotted)
  {
    if s != "" {
      var t := Parse(s, dotted);
      if t.Some? {
        ParsedText(s, t.value);
        var rest := s[|t.value.Text()|..];
        PassFlipsTokens(rest, dotted);
        PiecesNext(Replaced(t.value), Pieces(rest, dotted));
        assert s == t.value.Text() + rest;
      } else {
        PassFlipsTokens(s[1..], dotted);
        PiecesNext(Copied(s[0]), Pieces(s[1..], dotted));
        assert s == [s[0]] + s[1..];
      }
    }
  }

  lemma PiecesNext(piece: Piece, rest: seq<Piece>)
    ensures ([piece] + rest)[0] == piece && ([piece] + rest)[1..] == rest
  {
  }

  /** No token of this form starts anywhere in `s`. */
  predicate Free(s: string, dotted: bool) {
    s == "" || (Parse(s, dotted).None? && Free(s[1..], dotted))
  }

  lemma {:induction false} FreeMeans(s: string, dotted: bool)
    ensures Free(s, dotted) <==> forall i | 0 <= i <= |s| :: Parse(s[i..], dotted).None?
    ensures Free(s, dotted) <==> Count(s, dotted) == 0
  {
    if s != "" {
      FreeMeans(s[1..], dotted);
      assert s[0..] == s;
      assert forall i | 1 <= i <= |s| :: s[i..] == s[1..][i - 1..];
      assert forall i | 0 <= i < |s| :: s[1..][i..] == s[i + 1..];
    }
  }

  lemma {:induction false} FreeIsUntouched(s: string, dotted: bool)
    requires Free(s, dotted)
    ensures Rewrite(s, dotted) == s
  {
    if s != "" {
      FreeIsUntouched(s[1..], dotted);
      assert s == [s[0]] + s[1..];
    }
  }

  /** The length changes by one character for each replaced token. */
  lemma {:induction false} LengthOfRewrite(s: string, dotted: bool)
    ensures |Rewrite(s, dotted)| == if dotted then |s| - Count(s, dotted) else |s| + Count(s, dotted)
  {
    if s != "" {
      var t := Parse(s, dotted);
      if t.Some? {
        ParsedText(s, t.value);
        LengthOfRewrite(s[|t.value.Text()|..], dotted);
      } else {
        LengthOfRewrite(s[1..], dotted);
      }
    }
  }

  predicate NoOpenBrace(s: string) {
    forall c | c in s :: c != '{'
  }

  /** The result starts with two braces where the text starts with a token, and with the first
      character of the text otherwise. */
  lemma CopiedUnlessBraces(s: string, dotted: bool)
    requires Rewrite(s, dotted) != ""
    requires Rewrite(s, dotted)[0] != '{' || (|Rewrite(s, dotted)| > 1 && Rewrite(s, dotted)[1] != '{')
    ensures s != "" && Rewrite(s, dotted) == [s[0]] + Rewrite(s[1..], dotted)
  {
  }

  /** Text without an opening brace gets into the result only by being copied. */
  lemma {:induction false} CopiedPrefix(s: string, dotted: bool, w: string)
    requires NoOpenBrace(w) && w <= Rewrite(s, dotted)
    ensures w <= s
  {
    if w != "" {
      var r := Rewrite(s, dotted);
      assert w[0] in w && r[0] == w[0];
      CopiedUnlessBraces(s, dotted);
      assert w[1..] <= r[1..] && r[1..] == Rewrite(s[1..], dotted);
      assert forall c | c in w[1..] :: c in w;
      CopiedPrefix(s[1..], dotted, w[1..]);
      assert w == [w[0]] + w[1..] && s == [s[0]] + s[1..];
    }
  }

  /** A single opening brace gets into the result only by being copied. */
  lemma CopiedBrace(s: string, dotted: bool, w: string)
    requires "{" + w <= Rewrite(s, dotted)
    requires w != "" && w[0] != '{'
    ensures s != "" && s[0] == '{' && w <= Rewrite(s[1..], dotted)
  {
    var r := Rewrite(s, dotted);
    assert ("{" + w)[1] == w[0] && r[1] == w[0];
    CopiedUnlessBraces(s, dotted);
    assert r[0] == ("{" + w)[0];
    assert ("{" + w)[1..] == w && r[1..] == Rewrite(s[1..], dotted);
  }

  /** A token at the start of a text, without its two opening braces. */
  lemma AfterBraces(c: char, r: string, t: Token) returns (w: string)
    requires Parse([c] + r, t.dotted) == Some(t)
    ensures t.Valid() && t.Text() == "{{" + w && w != "" && NoOpenBrace(w)
    ensures c == '{' && "{" + w <= r
  {
    ParsedText([c] + r, t);
    CharsOfToken(t);
    w := t.lead + (t.Body() + (t.trail + "}}"));
    assert t.Text() == ['{'] + ("{" + w);
    assert ([c] + r)[1..] == r && t.Text()[1..] == "{" + w;
    assert t.Text()[0] == '{';
  }

  /** Copying a character never makes a token: not of the form that is rewritten, nor of the other. */
  lemma CopyMakesNoToken(s: string, dotted: bool, form: bool)
    requires s != "" && Parse(s, dotted).None? && Parse(s, form).None?
    ensures Parse([s[0]] + Rewrite(s[1..], dotted), form).None?
  {
    var r := Rewrite(s[1..], dotted);
    var found := Parse([s[0]] + r, form);
    if found.Some? {
      var w := AfterBraces(s[0], r, found.value);
      assert w[0] in w;
      CopiedBrace(s[1..], dotted, w);
      CopiedPrefix(s[1..][1..], dotted, w);
      TokenAtStart(s, found.value, w);
    }
  }

  lemma TokenAtStart(s: string, t: Token, w: string)
    requires t.Valid() && t.Text() == "{{" + w
    requires |s| >= 2 && s[0] == '{' && s[1] == '{' && w <= s[1..][1..]
    ensures Parse(s, t.dotted) == Some(t)
  {
    assert s == "{{" + s[1..][1..];
    ParseIff(s, t);
  }

  /** Inside a token no other token starts. */
  lemma TokenStartsOnce(t: Token, rest: string, i: nat, form: bool)
    requires t.Valid() && 0 < i < |t.Text()|
    ensures Parse((t.Text() + rest)[i..], form).None?
  {
    CharsOfToken(t);
    var w := t.lead + (t.Body() + (t.trail + "}}"));
    var s := (t.Text() + rest)[i..];
    if i == 1 {
      assert s[1] == w[0] && w[0] in w;
    } else {
      assert s[0] == w[i - 2] && w[i - 2] in w;
    }
  }

  /** A token of the one form is not a token of the other. */
  lemma FormsDiffer(t: Token, rest: string)
    requires t.Valid()
    ensures Parse(t.Text() + rest, !t.dotted).None?
  {
    ParseText(t, rest);
    var other := Parse(t.Text() + rest, !t.dotted);
    CharsOfPath(t.path);
    if other.Some? {
      ParsedText(t.Text() + rest, other.value);
      CharsOfPath(other.value.path);
    }
  }

  // ----- Idempotence -----

  lemma {:induction false} FreeFrom(x: string, rest: string, i: nat, dotted: bool)
    requires i <= |x| && Free(rest, dotted)
    requires forall j | i <= j < |x| :: Parse((x + rest)[j..], dotted).None?
    ensures Free((x + rest)[i..], dotted)
    decreases |x| - i
  {
    if i == |x| {
      assert (x + rest)[i..] == rest;
    } else {
      FreeFrom(x, rest, i + 1, dotted);
      assert (x + rest)[i..][1..] == (x + rest)[i + 1..];
    }
  }

  lemma FreeAfterToken(t: Token, rest: string, form: bool)
    requires t.Valid() && t.dotted != form && Free(rest, form)
    ensures Free(t.Text() + rest, form)
  {
    var x := t.Text();
    forall j | 0 <= j < |x|
      ensures Parse((x + rest)[j..], form).None?
    {
      if j == 0 {
        assert (x + rest)[0..] == x + rest;
        FormsDiffer(t, rest);
      } else {
        TokenStartsOnce(t, rest, j, form);
      }
    }
    FreeFrom(x, rest, 0, form);
    assert (x + rest)[0..] == x + rest;
  }

  /** The result of the pass has no token left to rewrite. */
  lemma {:induction false} RewriteLeavesNone(s: string, dotted: bool)
    ensures Free(Rewrite(s, dotted), dotted)
  {
    if s != "" {
      var found := Parse(s, dotted);
      if found.Some? {
        var t := found.value;
        ParsedText(s, t);
        var rest := s[|t.Text()|..];
        RewriteLeavesNone(rest, dotted);
        FreeAfterToken(t.Flip(), Rewrite(rest, dotted), dotted);
      } else {
        RewriteLeavesNone(s[1..], dotted);
        CopyMakesNoToken(s, dotted, dotted);
        assert ([s[0]] + Rewrite(s[1..], dotted))[1..] == Rewrite(s[1..], dotted);
      }
    }
  }

  /** Main result: the pass may be applied any number of times. */
  lemma PreprocessIsIdempotent(s: string)
    ensures Preprocess(Preprocess(s)) == Preprocess(s)
    ensures |Preprocess(s)| == |s| + Count(s, false)
  {
    RewriteLeavesNone(s, false);
    FreeIsUntouched(Preprocess(s), false);
    LengthOfRewrite(s, false);
  }

  // ----- The inverse -----

  /** Taking the dots out again: the same pass for the other form. */
  function Strip(s: string): string {
    Rewrite(s, true)
  }

  /** No token starts within `x` where `rest` follows it. */
  predicate Silent(x: string, rest: string, dotted: bool) {
    x == "" || (Parse(x + rest, dotted).None? && Silent(x[1..], rest, dotted))
  }

  lemma {:induction false} CopyThrough(x: string, rest: string, dotted: bool)
    requires Silent(x, rest, dotted)
    ensures Rewrite(x + rest, dotted) == x + Rewrite(rest, dotted)
    ensures Count(x + rest, dotted) == Count(rest, dotted)
  {
    if x == "" {
      assert x + rest == rest;
    } else {
      CopyThrough(x[1..], rest, dotted);
      NextChar(x, rest);
      NextChar(x, Rewrite(rest, dotted));
      RewriteOfChar(x + rest, dotted);
    }
  }

  lemma NextChar(x: string, rest: string)
    requires x != ""
    ensures (x + rest)[0] == x[0] && (x + rest)[1..] == x[1..] + rest && [x[0]] + (x[1..] + rest) == x + rest
  {
    assert x == [x[0]] + x[1..];
  }

  lemma Suffixes(x: string, rest: string, i: nat)
    requires i < |x|
    ensures x[i..][1..] == x[i + 1..] && (x + rest)[i..] == x[i..] + rest
  {
  }

  lemma {:induction false} OtherFormIsSilent(t: Token, rest: string, i: nat)
    requires t.Valid() && i <= |t.Text()|
    ensures Silent(t.Text()[i..], rest, !t.dotted)
    decreases |t.Text()| - i
  {
    var x := t.Text();
    if i < |x| {
      OtherFormIsSilent(t, rest, i + 1);
      NoOtherTokenAt(t, rest, i);
      SilentNext(x, rest, i, !t.dotted);
    }
  }

  lemma NoOtherTokenAt(t: Token, rest: string, i: nat)
    requires t.Valid() && i < |t.Text()|
    ensures Parse(t.Text()[i..] + rest, !t.dotted).None?
  {
    Suffixes(t.Text(), rest, i);
    if i == 0 {
      assert t.Text()[0..] == t.Text();
      FormsDiffer(t, rest);
    } else {
      TokenStartsOnce(t, rest, i, !t.dotted);
    }
  }

  lemma SilentNext(x: string, rest: string, i: nat, dotted: bool)
    requires i < |x| && Parse(x[i..] + rest, dotted).None? && Silent(x[i + 1..], rest, dotted)
    ensures Silent(x[i..], rest, dotted)
  {
    Suffixes(x, rest, i);
  }

  lemma OtherFormIsCopied(t: Token, rest: string)
    requires t.Valid()
    ensures Rewrite(t.Text() + rest, !t.dotted) == t.Text() + Rewrite(rest, !t.dotted)
    ensures Count(t.Text() + rest, !t.dotted) == Count(rest, !t.dotted)
  {
    OtherFormIsSilent(t, rest, 0);
    assert t.Text()[0..] == t.Text();
    CopyThrough(t.Text(), rest, !t.dotted);
  }

  lemma RewriteOfToken(t: Token, rest: string)
    requires t.Valid()
    ensures Rewrite(t.Text() + rest, t.dotted) == t.Flip().Text() + Rewrite(rest, t.dotted)
    ensures Count(t.Text() + rest, t.dotted) == 1 + Count(rest, t.dotted)
  {
    ParseText(t, rest);
    assert (t.Text() + rest)[|t.Text()|..] == rest;
  }

  lemma RewriteOfChar(s: string, dotted: bool)
    requires s != "" && Parse(s, dotted).None?
    ensures Rewrite(s, dotted) == [s[0]] + Rewrite(s[1..], dotted)
    ensures Count(s, dotted) == Count(s[1..], dotted)
  {
  }

  /** What the pass turns into dotted tokens adds to those that were there before. */
  lemma {:induction false} DottedAfterwards(s: string)
    ensures Count(Preprocess(s), true) == Count(s, false) + Count(s, true)
    decreases |s|
  {
    if s != "" {
      var plain, other := Parse(s, false), Parse(s, true);
      if plain.Some? {
        var t := plain.value;
        ParsedText(s, t);
        var rest := s[|t.Text()|..];
        assert s == t.Text() + rest;
        DottedAfterwards(rest);
        OtherFormIsCopied(t, rest);
        RewriteOfToken(t, rest);
        RewriteOfToken(t.Flip(), Preprocess(rest));
      } else if other.Some? {
        var t := other.value;
        ParsedText(s, t);
        var rest := s[|t.Text()|..];
        assert s == t.Text() + rest;
        DottedAfterwards(rest);
        OtherFormIsCopied(t, rest);
        RewriteOfToken(t, rest);
        RewriteOfToken(t, Preprocess(rest));
      } else {
        DottedAfterwards(s[1..]);
        CopyMakesNoToken(s, false, true);
        RewriteOfChar(s, false);
        RewriteOfChar(s, true);
        var r := Preprocess(s);
        assert r[1..] == Preprocess(s[1..]);
        RewriteOfChar(r, true);
      }
    }
  }

  lemma {:induction false} StripUndoes(s: string)
    requires Free(s, true)
    ensures Strip(Preprocess(s)) == s
  {
    if s != "" {
      var plain := Parse(s, false);
      if plain.Some? {
        var t := plain.value;
        ParsedText(s, t);
        var rest := s[|t.Text()|..];
        assert s == t.Text() + rest;
        FreeSuffix(s, |t.Text()|);
        StripUndoes(rest);
        RewriteOfToken(t, rest);
        RewriteOfToken(t.Flip(), Preprocess(rest));
        assert t.Flip().Flip() == t;
      } else {
        StripUndoes(s[1..]);
        CopyMakesNoToken(s, false, true);
        var r := Preprocess(s);
        assert r[1..] == Preprocess(s[1..]);
        RewriteOfChar(r, true);
        assert s == [s[0]] + s[1..];
      }
    }
  }

  lemma {:induction false} FreeSuffix(s: string, i: nat)
    requires Free(s, true) && i <= |s|
    ensures Free(s[i..], true)
  {
    if i == 0 {
      assert s[0..] == s;
    } else {
      FreeSuffix(s[1..], i - 1);
      assert s[1..][i - 1..] == s[i..];
    }
  }

  /** Main result: taking the dots out gives back the template exactly when the template had no
      dotted path of its own; otherwise those lose their dots too. */
  lemma StripInvertsIff(s: string)
    ensures Strip(Preprocess(s)) == s <==> Free(s, true)
  {
    FreeMeans(s, true);
    if Free(s, true) {
      StripUndoes(s);
    }
    DottedAfterwards(s);
    LengthOfRewrite(s, false);
    LengthOfRewrite(Preprocess(s), true);
  }
}
