/** What patterns mean, piece by piece, and what adding a pattern to a scope does. */
module GlobLaws {
  import opened Glob

  /** What the first token may take. */
  predicate Takes(t: Token, taken: string)
  {
    match t
    case Literal(c) => taken == [c]
    case OneChar => |taken| == 1 && taken[0] != '/'
    case InSegment => '/' !in taken
    case AnyText => '\n' !in taken
    case AnyDirs => taken == "" || (taken[|taken| - 1] == '/' && '\n' !in taken)
  }

  lemma {:induction false} FirstTakes(tokens: seq<Token>, text: string)
    requires tokens != []
    ensures Matches(tokens, text)
            <==> exists k: nat :: k <= |text| && Takes(tokens[0], text[..k]) && Matches(tokens[1..], text[k..])
  {
    var rest := tokens[1..];
    hide Takes;
    match tokens[0]
    case Literal(c) => CharTakes(tokens[0], text);
      OneTaken(tokens[0], rest, text);
    case OneChar => CharTakes(tokens[0], text);
      OneTaken(tokens[0], rest, text);
    case AnyDirs => DirsTake(text);
      assert text[..0] == "" && text[0..] == text;
    case _ => RunTakes(tokens[0], text);
  }

  lemma CharTakes(t: Token, text: string)
    requires t.Literal? || t.OneChar?
    ensures forall k: nat :: k <= |text| && Takes(t, text[..k]) ==> k == 1
    ensures |text| >= 1 ==> (Takes(t, text[..1]) <==> if t.Literal? then text[0] == t.c else text[0] != '/')
  {
    forall k: nat | k <= |text| && Takes(t, text[..k]) ensures k == 1 {
      assert |text[..k]| == 1;
    }
  }

  lemma OneTaken(t: Token, rest: seq<Token>, text: string)
    requires forall k: nat :: k <= |text| && Takes(t, text[..k]) ==> k == 1
    ensures (exists k: nat :: k <= |text| && Takes(t, text[..k]) && Matches(rest, text[k..]))
            <==> |text| >= 1 && Takes(t, text[..1]) && Matches(rest, text[1..])
  {
    hide Takes, Matches;
  }

  lemma DirsTake(text: string)
    ensures forall k: nat :: k <= |text| ==>
      (Takes(AnyDirs, text[..k]) <==> k == 0 || (text[k - 1] == '/' && '\n' !in text[..k]))
  {
    forall k: nat | k <= |text|
      ensures Takes(AnyDirs, text[..k]) <==> k == 0 || (text[k - 1] == '/' && '\n' !in text[..k])
    {
      if k > 0 {
        assert text[..k][|text[..k]| - 1] == text[k - 1];
      }
    }
  }

  lemma RunTakes(t: Token, text: string)
    requires t.InSegment? || t.AnyText?
    ensures forall k: nat :: k <= |text| ==>
              (Takes(t, text[..k]) <==> (if t.InSegment? then '/' else '\n') !in text[..k])
  {
  }

  // ---------------------------------------------------------------------------
  // Patterns in pieces
  // ---------------------------------------------------------------------------

  /** `piece` is the first piece of the pattern `piece + rest`. */
  predicate IsPiece(piece: string, rest: string)
  {
    || piece == "**/"
    || (piece == "**" && (rest == "" || rest[0] != '/'))
    || (piece == "*" && (rest == "" || rest[0] != '*'))
    || (|piece| == 1 && piece != "*")
  }

  /** The texts that a piece stands for. */
  predicate StandsFor(piece: string, text: string)
  {
    if piece == "**/" then text == "" || (text[|text| - 1] == '/' && '\n' !in text)
    else if piece == "**" then '\n' !in text
    else if piece == "*" then '/' !in text
    else if piece == "?" then |text| == 1 && text != "/"
    else text == piece
  }

  function TokenOf(piece: string): Token
    requires piece != ""
  {
    if piece == "**/" then AnyDirs
    else if piece == "**" then AnyText
    else if piece == "*" then InSegment
    else if piece == "?" then OneChar
    else Literal(piece[0])
  }

  lemma PieceIsToken(piece: string, rest: string)
    requires IsPiece(piece, rest)
    ensures Tokenize(piece + rest) == [TokenOf(piece)] + Tokenize(rest)
  {
    var pattern := piece + rest;
    assert pattern[|piece|..] == rest;
    assert forall i :: 0 <= i < |piece| ==> pattern[i] == piece[i];
    assert rest != "" ==> pattern[|piece|] == rest[0];
    if piece != "**/" && piece != "**" && piece != "*" {
      assert piece == [piece[0]];
    }
  }

  lemma TokenTakes(piece: string, text: string)
    requires IsPiece(piece, "")
    ensures Takes(TokenOf(piece), text) <==> StandsFor(piece, text)
  {
    if piece == "?" && |text| == 1 {
      assert text == [text[0]];
    } else if |piece| == 1 {
      assert piece == [piece[0]];
    }
  }

  /**
   * A pattern matches a text exactly when its first piece stands for a beginning of the text and the rest of the
   * pattern matches what follows; the empty pattern matches the empty text only.
   */
  lemma PatternByPieces(piece: string, rest: string, text: string)
    requires IsPiece(piece, rest)
    ensures GlobMatches(piece + rest, text)
            <==> exists k: nat :: k <= |text| && StandsFor(piece, text[..k]) && GlobMatches(rest, text[k..])
    ensures GlobMatches("", text) <==> text == ""
  {
    PieceIsToken(piece, rest);
    var tokens := [TokenOf(piece)] + Tokenize(rest);
    assert tokens[1..] == Tokenize(rest);
    FirstTakes(tokens, text);
    forall k: nat | k <= |text| ensures Takes(TokenOf(piece), text[..k]) <==> StandsFor(piece, text[..k]) {
      TokenTakes(piece, text[..k]);
    }
    hide Takes, StandsFor;
  }

  // ---------------------------------------------------------------------------
  // Scopes
  // ---------------------------------------------------------------------------

  /** A path is in scope when some positive pattern matches it, or there is none, and no excluded pattern matches it. */
  lemma InScopeIff(path: string, scopes: seq<string>)
    ensures MatchesScope(path, scopes)
            <==> ((exists p :: p in scopes && !("!" <= p) && GlobMatches(p, path))
                  || forall p :: p in scopes ==> "!" <= p)
                 && forall p :: "!" + p in scopes ==> !GlobMatches(p, path)
  {
    hide GlobMatches;
    forall p: string ensures IsNegative(p) <==> "!" <= p {
    }
    forall p: string | IsNegative(p) ensures p == "!" + p[1..] {
    }
    forall p: string ensures IsNegative("!" + p) && ("!" + p)[1..] == p {
    }
  }

  /** Excluding a pattern takes away exactly what it matches. */
  lemma ExclusionTakesAway(path: string, scopes: seq<string>, p: string)
    ensures MatchesScope(path, scopes + ["!" + p]) <==> MatchesScope(path, scopes) && !GlobMatches(p, path)
  {
    hide GlobMatches;
    var more := scopes + ["!" + p];
    assert ("!" + p)[1..] == p && IsNegative("!" + p);
    assert forall x :: x in more <==> x in scopes || x == "!" + p;
  }
}
