/** Glob matching of worker ids: the case-sensitive matcher of `common/str.cpp`
    and the role pattern of `cpid/cpid2kworker.cpp`.

    A character is modelled by the integer the C code promotes it to, so every
    result holds whether plain `char` is signed or unsigned. Patterns are
    followed by one NUL, as the matcher looks one character past the end.
    An address in a C buffer becomes an index into a sequence.
 */
module Glob {

  type Code = int

  const NUL: Code := 0
  const STAR: Code := '*' as int
  const QUESTION: Code := '?' as int
  const OPEN: Code := '[' as int
  const CLOSE: Code := ']' as int
  const CARET: Code := '^' as int
  const DASH: Code := '-' as int
  const ESCAPE: Code := '\\' as int
  const UNDERSCORE: Code := '_' as int

  datatype Item = Item(lo: Code, hi: Code)

  /** What a pattern means, token by token. */
  datatype Token =
    | Star
    | Any
    | Literal(c: Code)
    | Class(negated: bool, items: seq<Item>)

  predicate ItemAccepts(item: Item, c: Code) {
    item.lo <= c <= item.hi
  }

  predicate ClassAccepts(items: seq<Item>, c: Code) {
    exists i :: 0 <= i < |items| && ItemAccepts(items[i], c)
  }

  /** Does a single-character token accept `c`? */
  predicate Accepts(t: Token, c: Code) {
    match t
    case Star => false
    case Any => true
    case Literal(d) => c == d
    case Class(negated, items) => negated != ClassAccepts(items, c)
  }

  /** Token `t` stands for the characters of `s` in `[i, j)`. */
  predicate Piece(t: Token, s: seq<Code>, i: nat, j: nat) {
    i <= j <= |s| && (t.Star? || (j == i + 1 && Accepts(t, s[i])))
  }

  /** `s` from `i` is cut into consecutive pieces, one for each token. */
  ghost predicate Cut(ts: seq<Token>, s: seq<Code>, i: nat, cuts: seq<nat>) {
    && |cuts| == |ts| + 1
    && cuts[0] == i && cuts[|ts|] == |s|
    && forall k :: 0 <= k < |ts| ==> Piece(ts[k], s, cuts[k], cuts[k + 1])
  }

  /** The glob relation: the language of a token list. */
  ghost predicate Denotes(ts: seq<Token>, s: seq<Code>) {
    exists cuts :: Cut(ts, s, 0, cuts)
  }

  /** The same relation, by recursion on the tokens, for `s` from `i`. */
  ghost predicate Matches(ts: seq<Token>, s: seq<Code>, i: nat)
    decreases |ts|
  {
    if ts == [] then i == |s|
    else if ts[0].Star? then exists k :: i <= k <= |s| && Matches(ts[1..], s, k)
    else i < |s| && Accepts(ts[0], s[i]) && Matches(ts[1..], s, i + 1)
  }

  lemma {:induction false} MatchesHasCuts(ts: seq<Token>, s: seq<Code>, i: nat) returns (cuts: seq<nat>)
    requires Matches(ts, s, i)
    ensures Cut(ts, s, i, cuts)
    decreases |ts|
  {
    if ts == [] {
      cuts := [i];
    } else {
      var k := i + 1;
      if ts[0].Star? {
        k :| i <= k <= |s| && Matches(ts[1..], s, k);
      }
      var rest := MatchesHasCuts(ts[1..], s, k);
      cuts := [i] + rest;
      assert forall j :: 0 < j < |ts| ==> ts[j] == ts[1..][j - 1];
    }
  }

  lemma {:induction false} CutsMatch(ts: seq<Token>, s: seq<Code>, i: nat, cuts: seq<nat>)
    requires Cut(ts, s, i, cuts)
    ensures Matches(ts, s, i)
    decreases |ts|
  {
    if ts != [] {
      var rest := cuts[1..];
      assert Piece(ts[0], s, cuts[0], cuts[1]);
      forall j | 0 <= j < |ts| - 1 ensures Piece(ts[1..][j], s, rest[j], rest[j + 1]) {
        assert Piece(ts[j + 1], s, cuts[j + 1], cuts[j + 2]);
      }
      CutsMatch(ts[1..], s, cuts[1], rest);
    }
  }

  /** The recursive relation is the language of the pattern. */
  lemma MatchesIsDenotes(ts: seq<Token>, s: seq<Code>)
    ensures Matches(ts, s, 0) <==> Denotes(ts, s)
  {
    if Matches(ts, s, 0) {
      var cuts := MatchesHasCuts(ts, s, 0);
    }
    if Denotes(ts, s) {
      var cuts :| Cut(ts, s, 0, cuts);
      CutsMatch(ts, s, 0, cuts);
    }
  }

  /** Items of a character class from `i`, and where the pattern goes on. An
      unterminated class runs to the end of the pattern. */
  function ParseItems(p: seq<Code>, i: nat): (r: (seq<Item>, nat))
    requires i <= |p|
    ensures i <= r.1 <= |p|
    decreases |p| - i
  {
    if i == |p| then ([], i)
    else if p[i] == ESCAPE && i + 2 <= |p| then
      var (items, next) := ParseItems(p, i + 2);
      ([Item(p[i + 1], p[i + 1])] + items, next)
    else if p[i] == CLOSE then ([], i + 1)
    else if i + 3 <= |p| && p[i + 1] == DASH then
      var (items, next) := ParseItems(p, i + 3);
      ([if p[i] <= p[i + 2] then Item(p[i], p[i + 2]) else Item(p[i + 2], p[i])] + items, next)
    else
      var (items, next) := ParseItems(p, i + 1);
      ([Item(p[i], p[i])] + items, next)
  }

  /** The class whose opening bracket is just before `i`. */
  function ParseClass(p: seq<Code>, i: nat): (r: (Token, nat))
    requires i <= |p|
    ensures i <= r.1 <= |p|
  {
    var negated := i < |p| && p[i] == CARET;
    var (items, next) := ParseItems(p, if negated then i + 1 else i);
    (Class(negated, items), next)
  }

  /** The first token at `i` and where the next one starts. */
  function ParseToken(p: seq<Code>, i: nat): (r: (Token, nat))
    requires i < |p|
    ensures i < r.1 <= |p|
    ensures r.0.Star? <==> p[i] == STAR
  {
    if p[i] == STAR then (Star, i + 1)
    else if p[i] == QUESTION then (Any, i + 1)
    else if p[i] == OPEN then ParseClass(p, i + 1)
    else if p[i] == ESCAPE && i + 2 <= |p| then (Literal(p[i + 1]), i + 2)
    else (Literal(p[i]), i + 1)
  }

  /** The tokens of the pattern from `i`. */
  function ParseFrom(p: seq<Code>, i: nat): seq<Token>
    requires i <= |p|
    decreases |p| - i
  {
    if i == |p| then []
    else var (t, next) := ParseToken(p, i); [t] + ParseFrom(p, next)
  }

  function Parse(p: seq<Code>): seq<Token> {
    ParseFrom(p, 0)
  }

  /** The tokens of `p` from `i` match `s` from `j`. */
  ghost predicate At(p: seq<Code>, i: nat, s: seq<Code>, j: nat)
    requires i <= |p|
  {
    Matches(ParseFrom(p, i), s, j)
  }

  lemma AtToken(p: seq<Code>, i: nat, s: seq<Code>, j: nat)
    requires i < |p|
    ensures var (t, next) := ParseToken(p, i);
            At(p, i, s, j) <==> if t.Star? then exists k :: j <= k <= |s| && At(p, next, s, k)
                                else j < |s| && Accepts(t, s[j]) && At(p, next, s, j + 1)
  {
    var (t, next) := ParseToken(p, i);
    var ts := ParseFrom(p, i);
    assert ts[0] == t && ts[1..] == ParseFrom(p, next);
    if t.Star? && At(p, i, s, j) {
      assert Matches(ts, s, j);
      var k :| j <= k <= |s| && Matches(ts[1..], s, k);
      assert At(p, next, s, k);
    }
    if t.Star? && exists k :: j <= k <= |s| && At(p, next, s, k) {
      var k :| j <= k <= |s| && At(p, next, s, k);
      assert Matches(ts[1..], s, k);
    }
  }

  predicate AllStars(p: seq<Code>, i: nat) {
    forall k :: i <= k < |p| ==> p[k] == STAR
  }

  /** Only a run of stars denotes the empty string. */
  lemma {:induction false} EmptyMatch(p: seq<Code>, i: nat, s: seq<Code>)
    requires i <= |p|
    ensures At(p, i, s, |s|) <==> AllStars(p, i)
    decreases |p| - i
  {
    if i < |p| {
      AtToken(p, i, s, |s|);
      if p[i] == STAR {
        EmptyMatch(p, i + 1, s);
      }
    }
  }

  /** A token that is not a star takes one character. */
  lemma AtOne(p: seq<Code>, i: nat, s: seq<Code>, j: nat)
    requires i < |p| && j < |s| && p[i] != STAR
    ensures var (t, next) := ParseToken(p, i); At(p, i, s, j) <==> Accepts(t, s[j]) && At(p, next, s, j + 1)
  {
    AtToken(p, i, s, j);
    hide At, Accepts;
  }

  lemma AtEnd(p: seq<Code>, s: seq<Code>, j: nat)
    requires j <= |s|
    ensures At(p, |p|, s, j) <==> j == |s|
  {
  }

  /** A star absorbs the star after it. */
  lemma StarStar(p: seq<Code>, i: nat, s: seq<Code>, j: nat)
    requires i + 1 < |p| && p[i] == STAR && p[i + 1] == STAR
    requires j <= |s|
    ensures At(p, i, s, j) <==> At(p, i + 1, s, j)
  {
    AtToken(p, i, s, j);
    AtToken(p, i + 1, s, j);
    if At(p, i, s, j) {
      var k :| j <= k <= |s| && At(p, i + 1, s, k);
      AtToken(p, i + 1, s, k);
    }
  }

  /** The character at `i`, or the terminator just past the end. */
  function Read(p: seq<Code>, i: nat): Code
    requires i <= |p|
  {
    if i < |p| then p[i] else NUL
  }

  lemma ItemsHead(item: Item, items: seq<Item>, c: Code)
    ensures ClassAccepts([item] + items, c) <==> ItemAccepts(item, c) || ClassAccepts(items, c)
  {
    var all := [item] + items;
    if ClassAccepts(items, c) {
      var i :| 0 <= i < |items| && ItemAccepts(items[i], c);
      assert ItemAccepts(all[i + 1], c);
    }
    if ItemAccepts(item, c) {
      assert ItemAccepts(all[0], c);
    }
  }

  // ---------------------------------------------------------------------
  // What a pattern says, character by character
  // ---------------------------------------------------------------------

  /** Some item of the class whose rest starts at `i` accepts `c`. */
  predicate Holds(p: seq<Code>, i: nat, c: Code)
    requires i <= |p|
  {
    ClassAccepts(ParseItems(p, i).0, c)
  }

  /** The rest of a class: an escaped character stands for itself, a closing bracket ends
      the class, a dash makes a range of its neighbours, either way round, and any other
      character stands for itself; the end of the pattern ends the class, too. */
  lemma ClassMeans(p: seq<Code>, i: nat, c: Code)
    requires i <= |p|
    ensures i == |p| ==> !Holds(p, i, c) && ParseItems(p, i).1 == i
    ensures i < |p| ==>
            var next := ParseItems(p, i).1;
            if p[i] == ESCAPE && i + 2 <= |p| then
              (Holds(p, i, c) <==> c == p[i + 1] || Holds(p, i + 2, c)) && next == ParseItems(p, i + 2).1
            else if p[i] == CLOSE then !Holds(p, i, c) && next == i + 1
            else if i + 3 <= |p| && p[i + 1] == DASH then
              && (Holds(p, i, c) <==> p[i] <= c <= p[i + 2] || p[i + 2] <= c <= p[i] || Holds(p, i + 3, c))
              && next == ParseItems(p, i + 3).1
            else (Holds(p, i, c) <==> c == p[i] || Holds(p, i + 1, c)) && next == ParseItems(p, i + 1).1
  {
    if i < |p| {
      if p[i] == ESCAPE && i + 2 <= |p| {
        ItemsHead(Item(p[i + 1], p[i + 1]), ParseItems(p, i + 2).0, c);
      } else if p[i] != CLOSE {
        if i + 3 <= |p| && p[i + 1] == DASH {
          var item := if p[i] <= p[i + 2] then Item(p[i], p[i + 2]) else Item(p[i + 2], p[i]);
          ItemsHead(item, ParseItems(p, i + 3).0, c);
        } else {
          ItemsHead(Item(p[i], p[i]), ParseItems(p, i + 1).0, c);
        }
      }
      hide ClassAccepts;
    }
  }

  /** One token: a question mark accepts anything, a class what its rest says or, after a
      caret, what it does not say, and any other character itself, escaped or not. */
  lemma TokenMeans(p: seq<Code>, i: nat, c: Code)
    requires i < |p| && p[i] != STAR
    ensures var (t, next) := ParseToken(p, i);
            if p[i] == QUESTION then Accepts(t, c) && next == i + 1
            else if p[i] == OPEN && i + 1 < |p| && p[i + 1] == CARET then
              (Accepts(t, c) <==> !Holds(p, i + 2, c)) && next == ParseItems(p, i + 2).1
            else if p[i] == OPEN then (Accepts(t, c) <==> Holds(p, i + 1, c)) && next == ParseItems(p, i + 1).1
            else if p[i] == ESCAPE && i + 2 <= |p| then (Accepts(t, c) <==> c == p[i + 1]) && next == i + 2
            else (Accepts(t, c) <==> c == p[i]) && next == i + 1
  {
  }

  /** No character that is special inside a class. */
  predicate Listed(cs: seq<Code>) {
    forall k :: 0 <= k < |cs| ==> cs[k] != ESCAPE && cs[k] != CLOSE && cs[k] != DASH
  }

  lemma {:induction false} ListRest(p: seq<Code>, cs: seq<Code>, i: nat, c: Code)
    requires Listed(cs) && i + |cs| + 1 == |p| && p[i..] == cs + [CLOSE]
    ensures (Holds(p, i, c) <==> c in cs) && ParseItems(p, i).1 == |p|
    decreases |cs|
  {
    ClassMeans(p, i, c);
    assert p[i] == (cs + [CLOSE])[0];
    if cs != [] {
      assert p[i + 1] == (cs + [CLOSE])[1];
      assert p[i + 1..] == cs[1..] + [CLOSE];
      hide Holds;
      ListRest(p, cs[1..], i + 1, c);
      assert c in cs <==> c == cs[0] || c in cs[1..];
    }
  }

  lemma OneTokenDenotes(p: seq<Code>, c: Code)
    requires p != [] && p[0] != STAR && ParseToken(p, 0).1 == |p|
    ensures Denotes(Parse(p), [c]) <==> Accepts(ParseToken(p, 0).0, c)
  {
    MatchesIsDenotes(Parse(p), [c]);
    AtOne(p, 0, [c], 0);
    AtEnd(p, [c], 1);
    hide Accepts, ParseToken;
  }

  /** A list of characters in brackets accepts exactly those, and after a caret exactly the
      others. */
  lemma ListMeans(cs: seq<Code>, c: Code)
    requires Listed(cs)
    ensures cs != [] && cs[0] != CARET ==> (Denotes(Parse([OPEN] + cs + [CLOSE]), [c]) <==> c in cs)
    ensures Denotes(Parse([OPEN, CARET] + cs + [CLOSE]), [c]) <==> c !in cs
  {
    var p, n := [OPEN] + cs + [CLOSE], [OPEN, CARET] + cs + [CLOSE];
    assert p[1..] == cs + [CLOSE] && n[2..] == cs + [CLOSE];
    ListRest(n, cs, 2, c);
    TokenMeans(n, 0, c);
    OneTokenDenotes(n, c);
    if cs != [] && cs[0] != CARET {
      ListRest(p, cs, 1, c);
      TokenMeans(p, 0, c);
      OneTokenDenotes(p, c);
    }
  }

  /** A range accepts exactly the characters between its ends, either way round. */
  lemma RangeMeans(a: Code, b: Code, c: Code)
    requires a != ESCAPE && a != CLOSE && a != CARET
    ensures Denotes(Parse([OPEN, a, DASH, b, CLOSE]), [c]) <==> a <= c <= b || b <= c <= a
  {
    var p := [OPEN, a, DASH, b, CLOSE];
    ClassMeans(p, 1, c);
    ClassMeans(p, 4, c);
    TokenMeans(p, 0, c);
    OneTokenDenotes(p, c);
  }

  /** Tries the class whose bracket is just before `start` on `c`; `last` is the
      last character of the class. */
  method MatchClass(pattern: seq<Code>, start: nat, c: Code) returns (matched: bool, last: nat)
    requires 0 < start <= |pattern|
    ensures last + 1 == ParseClass(pattern, start).1
    ensures matched <==> Accepts(ParseClass(pattern, start).0, c)
  {
    var p := start;
    var negated := Read(pattern, p) == CARET;
    if negated {
      p := p + 1;
    }
    ghost var (items, next) := ParseItems(pattern, p);
    matched := false;
    while true
      invariant start <= p <= |pattern|
      invariant ParseItems(pattern, p).1 == next
      invariant ClassAccepts(items, c) <==> matched || ClassAccepts(ParseItems(pattern, p).0, c)
      decreases |pattern| - p
    {
      if Read(pattern, p) == ESCAPE && |pattern| - p >= 2 {
        ItemsHead(Item(pattern[p + 1], pattern[p + 1]), ParseItems(pattern, p + 2).0, c);
        p := p + 1;
        if pattern[p] == c {
          matched := true;
        }
      } else if Read(pattern, p) == CLOSE {
        break;
      } else if p == |pattern| {
        p := p - 1;
        break;
      } else if Read(pattern, p + 1) == DASH && |pattern| - p >= 3 {
        var lo, hi := pattern[p], pattern[p + 2];
        if lo > hi {
          lo, hi := hi, lo;
        }
        ItemsHead(Item(lo, hi), ParseItems(pattern, p + 3).0, c);
        p := p + 2;
        if lo <= c <= hi {
          matched := true;
        }
      } else {
        ItemsHead(Item(pattern[p], pattern[p]), ParseItems(pattern, p + 1).0, c);
        if pattern[p] == c {
          matched := true;
        }
      }
      p := p + 1;
    }
    last := p;
    if negated {
      matched := !matched;
    }
  }

  /** Tries the token at `p`, which is no star, on `c`; `last` is the last
      character of the token. */
  method MatchOne(pattern: seq<Code>, p: nat, c: Code) returns (matched: bool, last: nat)
    requires p < |pattern| && pattern[p] != STAR
    ensures last + 1 == ParseToken(pattern, p).1
    ensures matched <==> Accepts(ParseToken(pattern, p).0, c)
  {
    if pattern[p] == QUESTION {
      return true, p;
    } else if pattern[p] == OPEN {
      matched, last := MatchClass(pattern, p + 1, c);
    } else {
      last := p;
      if pattern[p] == ESCAPE && |pattern| - p >= 2 {
        last := p + 1;
      }
      matched := pattern[last] == c;
    }
  }

  /** The matcher, on the pattern from `p0` and the string from `s0`. */
  method MatchFrom(pattern: seq<Code>, p0: nat, str: seq<Code>, s0: nat) returns (accepted: bool)
    requires p0 <= |pattern| && s0 <= |str|
    ensures accepted <==> if s0 == |str| then p0 == |pattern| else At(pattern, p0, str, s0)
    decreases |pattern| - p0, 1
  {
    hide At, Accepts, ParseToken, AllStars;
    var p, s := p0, s0;
    while p < |pattern| && s < |str|
      invariant p0 <= p <= |pattern| && s0 <= s <= |str|
      invariant s0 == |str| ==> p == p0
      invariant s == |str| ==> s0 == |str|
      invariant s0 < |str| ==> (At(pattern, p0, str, s0) <==> At(pattern, p, str, s))
      decreases |pattern| - p
    {
      if pattern[p] == STAR {
        while Read(pattern, p + 1) == STAR
          invariant p0 <= p < |pattern| && pattern[p] == STAR
          invariant At(pattern, p0, str, s0) <==> At(pattern, p, str, s)
          decreases |pattern| - p
        {
          StarStar(pattern, p, str, s);
          p := p + 1;
        }
        accepted := MatchStar(pattern, p, str, s);
        return;
      }
      AtOne(pattern, p, str, s);
      var ok;
      ok, p := MatchOne(pattern, p, str[s]);
      if !ok {
        return false;
      }
      s := s + 1;
      p := p + 1;
      if s == |str| {
        EmptyMatch(pattern, p, str);
        accepted := SkipStars(pattern, p);
        return;
      }
    }
    AtEnd(pattern, str, s);
    accepted := p == |pattern| && s == |str|;
  }

  /** The string is used up: only stars may be left. */
  method SkipStars(pattern: seq<Code>, start: nat) returns (atEnd: bool)
    requires start <= |pattern|
    ensures atEnd <==> AllStars(pattern, start)
  {
    var p := start;
    while Read(pattern, p) == STAR
      invariant start <= p <= |pattern|
      invariant forall k :: start <= k < p ==> pattern[k] == STAR
      decreases |pattern| - p
    {
      p := p + 1;
    }
    atEnd := p == |pattern|;
  }

  /** The last star of a run, at `p`: match at once if nothing follows, else try
      the rest of the pattern on every non-empty suffix of the string. */
  method MatchStar(pattern: seq<Code>, p: nat, str: seq<Code>, s0: nat) returns (accepted: bool)
    requires p < |pattern| && s0 < |str|
    requires pattern[p] == STAR && Read(pattern, p + 1) != STAR
    ensures accepted <==> At(pattern, p, str, s0)
    decreases |pattern| - p, 0
  {
    ghost var next := p + 1;
    AtToken(pattern, p, str, s0);
    EmptyMatch(pattern, next, str);
    if p == |pattern| - 1 {
      return true;
    }
    var s := s0;
    while s < |str|
      invariant s0 <= s <= |str|
      invariant forall k :: s0 <= k < s ==> !At(pattern, next, str, k)
    {
      var found := MatchFrom(pattern, p + 1, str, s);
      if found {
        return true;
      }
      s := s + 1;
    }
    return false;
  }

  /** A non-empty string is accepted exactly when the pattern denotes it; the
      empty string only by the empty pattern. */
  method StringMatch(pattern: seq<Code>, str: seq<Code>) returns (accepted: bool)
    ensures accepted <==> if str == [] then pattern == [] else Denotes(Parse(pattern), str)
  {
    accepted := MatchFrom(pattern, 0, str, 0);
    MatchesIsDenotes(Parse(pattern), str);
  }

  /** Exactly where the matcher departs from the glob relation: a non-empty run
      of stars denotes the empty string but does not accept it. */
  method Gmatch(str: seq<Code>, pattern: seq<Code>) returns (accepted: bool)
    ensures accepted ==> Denotes(Parse(pattern), str)
    ensures (accepted <==> Denotes(Parse(pattern), str)) <==> !(str == [] && pattern != [] && AllStars(pattern, 0))
  {
    accepted := StringMatch(pattern, str);
    EmptyMatch(pattern, 0, []);
    MatchesIsDenotes(Parse(pattern), str);
  }

  /** `?role_*`: all workers are identified by one character, the role, an
      underscore and an id. */
  function RolePattern(role: seq<Code>): seq<Code> {
    [QUESTION] + role + [UNDERSCORE, STAR]
  }

  /** No character of the role is special in a pattern. */
  predicate Plain(role: seq<Code>) {
    forall i :: 0 <= i < |role| ==> role[i] != STAR && role[i] != QUESTION && role[i] != OPEN && role[i] != ESCAPE
  }

  /** From `j` on the string goes on with the role from its `i`-th character on, and
      an underscore. */
  predicate Follows(s: seq<Code>, j: nat, role: seq<Code>, i: nat)
    requires i <= |role|
    decreases |role| - i
  {
    j < |s| && if i == |role| then s[j] == UNDERSCORE else s[j] == role[i] && Follows(s, j + 1, role, i + 1)
  }

  /** The token of a role pattern at a plain character. */
  lemma RoleToken(role: seq<Code>, i: nat)
    requires Plain(role) && i <= |role|
    ensures |RolePattern(role)| == |role| + 3
    ensures ParseToken(RolePattern(role), i + 1) == (Literal(if i < |role| then role[i] else UNDERSCORE), i + 2)
    ensures ParseToken(RolePattern(role), 0) == (Any, 1)
    ensures ParseToken(RolePattern(role), |role| + 2) == (Star, |role| + 3)
  {
  }

  /** From its `i`-th character on, a role pattern asks for just those
      characters, an underscore and anything. */
  lemma {:induction false} RoleTail(role: seq<Code>, i: nat, s: seq<Code>, j: nat)
    requires Plain(role) && i <= |role| && j <= |s|
    ensures At(RolePattern(role), i + 1, s, j) <==> Follows(s, j, role, i)
    decreases |role| - i
  {
    hide At, ParseToken, RolePattern, Plain;
    var p := RolePattern(role);
    RoleToken(role, i);
    AtToken(p, i + 1, s, j);
    if j < |s| {
      if i == |role| {
        AtToken(p, i + 2, s, j + 1);
        EmptyMatch(p, i + 3, s);
      } else {
        RoleTail(role, i + 1, s, j + 1);
      }
    }
  }

  lemma {:induction false} FollowsMeans(s: seq<Code>, j: nat, role: seq<Code>, i: nat)
    requires i <= |role| && j <= |s|
    ensures Follows(s, j, role, i) <==> role[i..] + [UNDERSCORE] <= s[j..]
    decreases |role| - i
  {
    if j < |s| {
      assert s[j..] == [s[j]] + s[j + 1..];
      if i < |role| {
        FollowsMeans(s, j + 1, role, i + 1);
        assert role[i..] + [UNDERSCORE] == [role[i]] + (role[i + 1..] + [UNDERSCORE]);
        PrefixOn(role[i], role[i + 1..] + [UNDERSCORE], s[j], s[j + 1..]);
      } else {
        PrefixOn(UNDERSCORE, [], s[j], s[j + 1..]);
      }
    }
  }

  lemma PrefixOn(a: Code, xs: seq<Code>, b: Code, ys: seq<Code>)
    ensures [a] + xs <= [b] + ys <==> a == b && xs <= ys
  {
    assert ([a] + xs)[1..] == xs && ([b] + ys)[1..] == ys;
    assert [a] + xs <= [b] + ys ==> ([b] + ys)[..|[a] + xs|] == [a] + xs;
    if a == b && xs <= ys {
      assert [b] + ys == [a] + xs + ys[|xs|..];
    }
    if [a] + xs <= [b] + ys {
      assert ([b] + ys)[0] == ([a] + xs)[0];
      assert forall k :: 0 <= k < |xs| ==> ys[k] == ([b] + ys)[k + 1] == ([a] + xs)[k + 1] == xs[k];
    }
  }

  /** One character, the role, an underscore, anything. */
  ghost predicate HasRole(id: seq<Code>, role: seq<Code>) {
    exists n, rest :: IsRole(id, n, role, rest)
  }

  predicate IsRole(id: seq<Code>, n: Code, role: seq<Code>, rest: seq<Code>) {
    id == [n] + (role + [UNDERSCORE]) + rest
  }

  lemma HasRoleMeans(id: seq<Code>, role: seq<Code>)
    requires id != []
    ensures HasRole(id, role) <==> role + [UNDERSCORE] <= id[1..]
  {
    var t := role + [UNDERSCORE];
    if t <= id[1..] {
      assert IsRole(id, id[0], role, id[1 + |t|..]);
    }
    if n, rest :| IsRole(id, n, role, rest) {
      assert id[1..] == t + rest;
    }
  }

  /** The whole pattern. */
  lemma RolePatternMeans(role: seq<Code>, id: seq<Code>)
    requires Plain(role) && id != []
    ensures At(RolePattern(role), 0, id, 0) <==> HasRole(id, role)
  {
    hide At, ParseToken, RolePattern, Plain, HasRole, Follows;
    RoleToken(role, 0);
    AtToken(RolePattern(role), 0, id, 0);
    RoleTail(role, 0, id, 1);
    FollowsMeans(id, 1, role, 0);
    assert role[0..] == role;
    HasRoleMeans(id, role);
  }

  /** A worker has a role exactly when its id is one character, the role, an
      underscore and anything. */
  method RoleIs(id: seq<Code>, role: seq<Code>) returns (r: bool)
    requires Plain(role)
    ensures r <==> HasRole(id, role)
  {
    r := MatchFrom(RolePattern(role), 0, id, 0);
    if id != [] {
      RolePatternMeans(role, id);
      hide At, RolePattern, HasRole;
    }
  }
}
