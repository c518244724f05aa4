/** Path patterns: how a glob becomes a matcher, and what a list of them includes. */
module Glob {

  /** The pieces a pattern is translated to. `.` in the generated expression does not match a line break. */
  datatype Token =
    | Literal(c: char)   // itself
    | OneChar            // ?     any character but '/'
    | InSegment          // *     any characters but '/'
    | AnyText            // **    any characters but a line break
    | AnyDirs            // **/   nothing, or a text without line breaks and then '/'

  function Tokenize(pattern: string): seq<Token>
  {
    if pattern == "" then []
    else if pattern[0] == '*' then
      if |pattern| > 1 && pattern[1] == '*' then
        if |pattern| > 2 && pattern[2] == '/' then [AnyDirs] + Tokenize(pattern[3..])
        else [AnyText] + Tokenize(pattern[2..])
      else [InSegment] + Tokenize(pattern[1..])
    else if pattern[0] == '?' then [OneChar] + Tokenize(pattern[1..])
    else [Literal(pattern[0])] + Tokenize(pattern[1..])
  }

  /** The whole of `text` matches `tokens`. */
  predicate Matches(tokens: seq<Token>, text: string)
    decreases tokens
  {
    if tokens == [] then text == ""
    else
      var rest := tokens[1..];
      match tokens[0]
      case Literal(c) => text != "" && text[0] == c && Matches(rest, text[1..])
      case OneChar => text != "" && text[0] != '/' && Matches(rest, text[1..])
      case InSegment => exists k :: 0 <= k <= |text| && '/' !in text[..k] && Matches(rest, text[k..])
      case AnyText => exists k :: 0 <= k <= |text| && '\n' !in text[..k] && Matches(rest, text[k..])
      case AnyDirs =>
        || Matches(rest, text)
        || exists k :: 0 < k <= |text| && text[k - 1] == '/' && '\n' !in text[..k] && Matches(rest, text[k..])
  }

  predicate GlobMatches(pattern: string, text: string)
  {
    Matches(Tokenize(pattern), text)
  }

  predicate IsNegative(pattern: string)
  {
    pattern != "" && pattern[0] == '!'
  }

  /** In scope: matched by a positive pattern, if there is any, and by no negative one. */
  predicate MatchesScope(path: string, scopes: seq<string>)
  {
    && ((forall p :: p in scopes ==> IsNegative(p))
        || (exists p :: p in scopes && !IsNegative(p) && GlobMatches(p, path)))
    && !(exists p :: p in scopes && IsNegative(p) && GlobMatches(p[1..], path))
  }

  // ---------------------------------------------------------------------------
  // Segments
  // ---------------------------------------------------------------------------

  /** The segments of a path between its slashes. */
  function Split(path: string): (segments: seq<string>)
    ensures |segments| > 0
  {
    if path == "" then [""]
    else
      var rest := Split(path[1..]);
      if path[0] == '/' then [""] + rest else [[path[0]] + rest[0]] + rest[1..]
  }

  /** `pre` and `post` are what is left of a path around one whole segment. */
  ghost predicate Around(pre: string, post: string)
  {
    && (pre == "" || pre[|pre| - 1] == '/')
    && (post == "" || post[0] == '/')
  }

  lemma PlaceShifts(c: char, pre: string, name: string, post: string)
    requires pre != "" && Around(pre, post)
    ensures Around([c] + pre, post) && [c] + (pre + name + post) == ([c] + pre) + name + post
  {
  }

  lemma {:induction false} SegmentHasPlace(path: string, i: nat) returns (pre: string, post: string)
    requires i < |Split(path)|
    ensures Around(pre, post) && path == pre + Split(path)[i] + post && (i == 0 <==> pre == "")
  {
    if path == "" {
      pre, post := "", "";
    } else {
      assert path == [path[0]] + path[1..];
      var rest := Split(path[1..]);
      if path[0] == '/' && i == 0 {
        pre, post := "", path;
      } else if path[0] == '/' {
        var pre';
        pre', post := SegmentHasPlace(path[1..], i - 1);
        pre := "/" + pre';
        assert path == pre + rest[i - 1] + post;
      } else if i == 0 {
        pre, post := SegmentHasPlace(path[1..], 0);
        assert path == ([path[0]] + rest[0]) + post;
      } else {
        var pre';
        pre', post := SegmentHasPlace(path[1..], i);
        PlaceShifts(path[0], pre', rest[i], post);
        pre := [path[0]] + pre';
      }
    }
  }

  lemma {:induction false} FirstSegment(name: string, post: string)
    requires '/' !in name && (post == "" || post[0] == '/')
    ensures Split(name + post)[0] == name
  {
    if name != "" {
      FirstSegment(name[1..], post);
      assert (name + post)[1..] == name[1..] + post;
      assert name == [name[0]] + name[1..];
    } else {
      assert name + post == post;
    }
  }

  lemma {:induction false} PlaceIsSegment(pre: string, name: string, post: string) returns (i: nat)
    requires Around(pre, post) && '/' !in name
    ensures i < |Split(pre + name + post)| && Split(pre + name + post)[i] == name && (pre != "" ==> i > 0)
  {
    if pre == "" {
      assert pre + name + post == name + post;
      FirstSegment(name, post);
      i := 0;
    } else {
      var rest := pre[1..];
      assert (pre + name + post)[1..] == rest + name + post;
      if rest == "" {
        assert pre[0] == '/';
      }
      var j := PlaceIsSegment(rest, name, post);
      i := if pre[0] == '/' then j + 1 else j;
    }
  }

  // ---------------------------------------------------------------------------
  // Patterns around a plain name
  // ---------------------------------------------------------------------------

  /** A name that a pattern can hold literally: no wildcard, and not taken for an exclusion. */
  predicate IsPlain(name: string)
  {
    '*' !in name && '?' !in name && '/' !in name && !IsNegative(name)
  }

  function Literals(name: string): seq<Token>
  {
    seq(|name|, i requires 0 <= i < |name| => Literal(name[i]))
  }

  lemma {:induction false} TokenizeName(name: string, rest: string)
    requires '*' !in name && '?' !in name
    ensures Tokenize(name + rest) == Literals(name) + Tokenize(rest)
  {
    if name == "" {
      assert name + rest == rest && Literals(name) + Tokenize(rest) == Tokenize(rest);
    } else {
      TokenizeName(name[1..], rest);
      assert (name + rest)[1..] == name[1..] + rest;
      assert name[0] in name;
      assert Literals(name) == [Literal(name[0])] + Literals(name[1..]);
    }
  }

  lemma {:induction false} MatchName(name: string, rest: seq<Token>, text: string)
    ensures Matches(Literals(name) + rest, text) <==> name <= text && Matches(rest, text[|name|..])
  {
    if name == "" {
      assert Literals(name) + rest == rest && text[|name|..] == text;
    } else {
      var tokens := Literals(name) + rest;
      assert tokens[0] == Literal(name[0]) && tokens[1..] == Literals(name[1..]) + rest;
      if text != "" && text[0] == name[0] {
        MatchName(name[1..], rest, text[1..]);
        assert name <= text <==> name[1..] <= text[1..];
        if name <= text {
          assert text[1..][|name[1..]|..] == text[|name|..];
        }
      }
    }
  }

  lemma MatchText(t: string)
    ensures Matches([AnyText], t) <==> '\n' !in t
  {
    assert [AnyText][1..] == [];
    assert t[..|t|] == t && t[|t|..] == "";
    forall k | 0 <= k <= |t| && Matches([], t[k..]) ensures k == |t| {
      assert |t[k..]| == 0;
    }
    assert Matches([], t[|t|..]);
  }

  /** Everything below a directory: a slash and a text without line breaks. */
  lemma MatchBelow(text: string)
    ensures Matches([Literal('/'), AnyText], text) <==> text != "" && text[0] == '/' && '\n' !in text
  {
    assert [Literal('/'), AnyText][1..] == [AnyText];
    if text != "" && text[0] == '/' {
      MatchText(text[1..]);
      assert text == [text[0]] + text[1..];
    }
  }

  lemma MatchAnyDirs(rest: seq<Token>, text: string)
    ensures Matches([AnyDirs] + rest, text)
            <==> exists k :: 0 <= k <= |text| && Around(text[..k], "") && '\n' !in text[..k] && Matches(rest, text[k..])
  {
    assert ([AnyDirs] + rest)[1..] == rest;
    assert text[..0] == "" && text[0..] == text;
    if Matches([AnyDirs] + rest, text) {
      if Matches(rest, text) {
        assert Around(text[..0], "") && Matches(rest, text[0..]);
      } else {
        var k :| 0 < k <= |text| && text[k - 1] == '/' && '\n' !in text[..k] && Matches(rest, text[k..]);
        assert text[..k][|text[..k]| - 1] == '/';
        assert Around(text[..k], "");
      }
    }
  }

  /** The four patterns with which a config stands for "some segment is `name`". */
  function SegmentPatterns(name: string): seq<string>
  {
    [name, name + "/**", "**/" + name, "**/" + name + "/**"]
  }

  function Tail(below: bool): seq<Token>
  {
    if below then [Literal('/'), AnyText] else []
  }

  /** What may follow the name: nothing, or everything below it. */
  predicate Follows(post: string, below: bool)
  {
    if below then post != "" && post[0] == '/' && '\n' !in post else post == ""
  }

  /** `text` is the name and what may follow it. */
  predicate NameThen(name: string, below: bool, text: string)
  {
    name <= text && Follows(text[|name|..], below)
  }

  lemma MatchNameThen(name: string, below: bool, text: string)
    ensures Matches(Literals(name) + Tail(below), text) <==> NameThen(name, below, text)
  {
    MatchName(name, Tail(below), text);
    if name <= text {
      MatchBelow(text[|name|..]);
    }
  }

  /** The tokens of each of the four patterns. */
  lemma FourPatterns(name: string)
    requires '*' !in name && '?' !in name
    ensures Tokenize(name) == Literals(name) + Tail(false)
    ensures Tokenize(name + "/**") == Literals(name) + Tail(true)
    ensures Tokenize("**/" + name) == [AnyDirs] + (Literals(name) + Tail(false))
    ensures Tokenize("**/" + name + "/**") == [AnyDirs] + (Literals(name) + Tail(true))
  {
    TokenizeName(name, "");
    assert name + "" == name && Literals(name) + [] == Literals(name);
    TokenizeName(name, "/**");
    BelowTokens();
    DirsTokens(name);
    DirsTokens(name + "/**");
    assert "**/" + name + "/**" == "**/" + (name + "/**");
  }

  lemma BelowTokens()
    ensures Tokenize("/**") == [Literal('/'), AnyText]
  {
    assert "/**"[1..] == "**";
    assert "**"[2..] == "";
    assert Tokenize("**") == [AnyText] + Tokenize("");
  }

  lemma DirsTokens(rest: string)
    ensures Tokenize("**/" + rest) == [AnyDirs] + Tokenize(rest)
  {
    assert ("**/" + rest)[3..] == rest;
  }

  /** `name` is a whole segment of `path`, and there is no line break around it. */
  ghost predicate ClearSegment(path: string, name: string)
  {
    exists pre, post :: Around(pre, post) && path == pre + name + post && '\n' !in pre && '\n' !in post
  }

  /** The name starts at `k`, a segment boundary, with no line break before it. */
  ghost predicate PlacedAt(path: string, name: string, below: bool, k: nat)
  {
    k <= |path| && Around(path[..k], "") && '\n' !in path[..k] && NameThen(name, below, path[k..])
  }

  lemma PlacedIsClear(path: string, name: string, below: bool, k: nat)
    requires PlacedAt(path, name, below, k)
    ensures ClearSegment(path, name)
  {
    var pre, post := path[..k], path[k..][|name|..];
    assert path == pre + name + post;
    assert Around(pre, post) && '\n' !in pre && '\n' !in post;
  }

  lemma ClearIsPlaced(path: string, name: string) returns (below: bool, k: nat)
    requires ClearSegment(path, name)
    ensures PlacedAt(path, name, below, k)
  {
    var pre, post :| Around(pre, post) && path == pre + name + post && '\n' !in pre && '\n' !in post;
    k, below := |pre|, post != "";
    assert path == pre + (name + post);
    assert path[..k] == pre && path[k..] == name + post && path[k..][|name|..] == post;
  }

  /** The last two patterns match exactly where the name is placed. */
  lemma MatchPlaced(path: string, name: string, below: bool)
    ensures Matches([AnyDirs] + (Literals(name) + Tail(below)), path)
            <==> exists k: nat :: PlacedAt(path, name, below, k)
  {
    var rest := Literals(name) + Tail(below);
    MatchAnyDirs(rest, path);
    forall k | 0 <= k <= |path| ensures Matches(rest, path[k..]) <==> NameThen(name, below, path[k..]) {
      MatchNameThen(name, below, path[k..]);
    }
    hide Matches, NameThen, Around, Literals, Tail;
    if exists k: nat :: PlacedAt(path, name, below, k) {
      var k: nat :| PlacedAt(path, name, below, k);
      assert 0 <= k <= |path| && Around(path[..k], "") && '\n' !in path[..k] && Matches(rest, path[k..]);
    }
    if Matches([AnyDirs] + rest, path) {
      var k: nat :| 0 <= k <= |path| && Around(path[..k], "") && '\n' !in path[..k] && Matches(rest, path[k..]);
      assert PlacedAt(path, name, below, k);
    }
  }

  /** One of the four patterns matches exactly the paths in which the name is a clear segment. */
  lemma PatternsFindSegment(path: string, name: string)
    requires '*' !in name && '?' !in name
    ensures (exists p :: p in SegmentPatterns(name) && GlobMatches(p, path)) <==> ClearSegment(path, name)
  {
    FourPatterns(name);
    MatchNameThen(name, false, path);
    MatchNameThen(name, true, path);
    MatchPlaced(path, name, false);
    MatchPlaced(path, name, true);
    AtStart(path, name, false);
    AtStart(path, name, true);
    hide Matches, NameThen, PlacedAt, Tokenize, Literals, Tail, ClearSegment;
    var ps := SegmentPatterns(name);
    assert ps[0] in ps && ps[1] in ps && ps[2] in ps && ps[3] in ps;
    if exists p :: p in ps && GlobMatches(p, path) {
      assert GlobMatches(ps[2], path) || GlobMatches(ps[3], path);
      var below := GlobMatches(ps[3], path);
      var k: nat :| PlacedAt(path, name, below, k);
      PlacedIsClear(path, name, below, k);
    }
    if ClearSegment(path, name) {
      var below, k := ClearIsPlaced(path, name);
      assert GlobMatches(if below then ps[3] else ps[2], path);
    }
  }

  lemma AtStart(path: string, name: string, below: bool)
    ensures NameThen(name, below, path) ==> exists k: nat :: PlacedAt(path, name, below, k)
  {
    if NameThen(name, below, path) {
      assert path[0..] == path && path[..0] == "";
      assert PlacedAt(path, name, below, 0);
    }
  }

  /** So for a plain name the four patterns include exactly those paths. */
  lemma ScopeFindsSegment(path: string, name: string)
    requires IsPlain(name)
    ensures MatchesScope(path, SegmentPatterns(name)) <==> ClearSegment(path, name)
  {
    PatternsFindSegment(path, name);
    hide GlobMatches, ClearSegment;
    var ps := SegmentPatterns(name);
    assert ps[0] in ps && ps[1] in ps && ps[2] in ps && ps[3] in ps;
    forall p | p in ps ensures !IsNegative(p) {
      assert p == ps[0] || p == ps[1] || p == ps[2] || p == ps[3];
    }
  }

  lemma ClearIsSegment(path: string, name: string)
    requires ClearSegment(path, name) && '/' !in name
    ensures name in Split(path)
  {
    var pre, post :| Around(pre, post) && path == pre + name + post && '\n' !in pre && '\n' !in post;
    var i := PlaceIsSegment(pre, name, post);
  }

  /** In a path without line breaks a clear segment is just a segment. */
  lemma ClearIffSegment(path: string, name: string)
    requires '\n' !in path && '/' !in name
    ensures ClearSegment(path, name) <==> name in Split(path)
  {
    if ClearSegment(path, name) {
      ClearIsSegment(path, name);
    }
    if name in Split(path) {
      var i: nat :| i < |Split(path)| && Split(path)[i] == name;
      var pre, post := SegmentHasPlace(path, i);
      assert path == pre + name + post;
      assert forall c :: c in pre || c in post ==> c in path;
    }
  }

  /** A line break in another segment hides the name from the patterns, though not from a segment search. */
  lemma LineBreakHidesSegment()
    ensures "b" in Split("\n/b") && !MatchesScope("\n/b", SegmentPatterns("b"))
  {
    assert "\n/b" == "\n/" + "b" + "";
    var i := PlaceIsSegment("\n/", "b", "");
    ScopeFindsSegment("\n/b", "b");
    forall pre, post | "\n/b" == pre + "b" + post ensures '\n' in pre {
      var path := pre + "b" + post;
      assert |pre| > 0 ==> path[0] == pre[0];
    }
  }
}
