/** Relative workspace paths of sandboxd/sandboxd/paths.py over POSIX path normalisation. */
module Paths {
  import opened Prelude
  import opened Texts

  datatype PathError = HasNul | IsEmpty | IsAbsolute | HasBackslash | LeavesWorkspace

  datatype Result = Ok(path: string) | Err(error: PathError)

  const UP: string := ".."
  const HERE: string := "."

  function Join(segments: seq<string>): string {
    if segments == [] then [] else if |segments| == 1 then segments[0] else segments[0] + ['/'] + Join(segments[1..])
  }

  /** One component of `normpath` of a relative path, on the components kept so far. */
  function Keep(kept: seq<string>, c: string): seq<string> {
    if c == [] || c == HERE then kept
    else if c != UP || kept == [] || kept[|kept| - 1] == UP then kept + [c]
    else kept[..|kept| - 1]
  }

  function KeepAll(kept: seq<string>, cs: seq<string>): seq<string>
    decreases |cs|
  {
    if cs == [] then kept else KeepAll(Keep(kept, cs[0]), cs[1..])
  }

  function NormPath(path: string): string {
    var r := Join(KeepAll([], Split(path, '/')));
    if r == [] then HERE else r
  }

  function Validate(path: string, allowDot: bool): Result {
    if 0 as char in path then Err(HasNul)
    else if path == [] then (if allowDot then Ok(HERE) else Err(IsEmpty))
    else if path[0] == '/' then Err(IsAbsolute)
    else if '\\' in path then Err(HasBackslash)
    else
      var n := NormPath(path);
      if n == HERE && allowDot then Ok(HERE)
      else if n == UP || n == HERE || n == [] then Err(LeavesWorkspace)
      else if "../" <= n || n[0] == '/' then Err(LeavesWorkspace)
      else Ok(n)
  }

  function JoinWorkspace(segments: seq<string>): Result { Validate(Join(segments), false) }

  /* ---- Where a path leads, independently of its spelling ---- */

  /** `ups` levels above the workspace, and then down the named directories. */
  datatype Location = Location(ups: nat, down: seq<string>)

  const WORKSPACE: Location := Location(0, [])

  function Walk(at: Location, c: string): Location {
    if c == [] || c == HERE then at
    else if c == UP then (if at.down == [] then Location(at.ups + 1, []) else Location(at.ups, at.down[..|at.down| - 1]))
    else Location(at.ups, at.down + [c])
  }

  function WalkAll(at: Location, cs: seq<string>): Location
    decreases |cs|
  {
    if cs == [] then at else WalkAll(Walk(at, cs[0]), cs[1..])
  }

  function Leads(path: string): Location { WalkAll(WORKSPACE, Split(path, '/')) }

  /* ---- Splitting and joining ---- */

  predicate Plain(c: string) { '/' !in c }

  predicate Proper(c: string) { c != [] && c != HERE && c != UP && Plain(c) }

  predicate AllPlain(cs: seq<string>) { forall k :: 0 <= k < |cs| ==> Plain(cs[k]) }

  predicate AllProper(cs: seq<string>) { forall k :: 0 <= k < |cs| ==> Proper(cs[k]) }

  lemma {:induction false} SplitIsPlain(s: string)
    ensures AllPlain(Split(s, '/'))
    decreases |s|
  {
    if s != [] { SplitIsPlain(s[1..]); }
  }

  lemma {:induction false} SplitOne(c: string)
    requires Plain(c)
    ensures Split(c, '/') == [c]
    decreases |c|
  {
    if c != [] {
      SplitOne(c[1..]);
      assert [c[0]] + c[1..] == c;
    }
  }

  lemma {:induction false} SplitJoin(cs: seq<string>)
    requires cs != [] && AllPlain(cs)
    ensures Split(Join(cs), '/') == cs
    decreases |cs|
  {
    SplitOne(cs[0]);
    if |cs| > 1 {
      SplitJoin(cs[1..]);
      SplitAt(cs[0], '/', Join(cs[1..]));
      assert [cs[0]] + cs[1..] == cs;
    }
  }

  /* ---- Normalisation keeps a leading run of ".." and then proper names ---- */

  function Dots(n: nat): seq<string> { seq(n, i => UP) }

  function Spelled(at: Location): seq<string> { Dots(at.ups) + at.down }

  lemma WalkIsProper(at: Location, c: string)
    requires AllProper(at.down) && Plain(c)
    ensures AllProper(Walk(at, c).down)
  {
  }

  /** One kept component is one step of the walk. */
  lemma KeepWalks(at: Location, c: string)
    requires AllProper(at.down) && Plain(c)
    ensures Keep(Spelled(at), c) == Spelled(Walk(at, c))
  {
    var kept := Spelled(at);
    if at.down != [] {
      assert kept[|kept| - 1] == at.down[|at.down| - 1] && Proper(at.down[|at.down| - 1]);
      assert kept[..|kept| - 1] == Dots(at.ups) + at.down[..|at.down| - 1];
    }
    if c != [] && c != HERE && (c != UP || at.down == []) {
      if c == UP { assert Dots(at.ups + 1) == Dots(at.ups) + [UP]; }
      assert kept + [c] == Spelled(Walk(at, c));
    }
  }

  lemma {:induction false} KeepAllWalks(at: Location, cs: seq<string>)
    requires AllProper(at.down) && AllPlain(cs)
    ensures KeepAll(Spelled(at), cs) == Spelled(WalkAll(at, cs)) && AllProper(WalkAll(at, cs).down)
    decreases |cs|
  {
    if cs != [] {
      KeepWalks(at, cs[0]);
      WalkIsProper(at, cs[0]);
      KeepAllWalks(Walk(at, cs[0]), cs[1..]);
    }
  }

  lemma NormSpells(path: string)
    ensures AllProper(Leads(path).down)
    ensures NormPath(path) == if Spelled(Leads(path)) == [] then HERE else Join(Spelled(Leads(path)))
  {
    SplitIsPlain(path);
    assert Spelled(WORKSPACE) == [];
    KeepAllWalks(WORKSPACE, Split(path, '/'));
    var kept := Spelled(Leads(path));
    forall k | 0 <= k < |kept| ensures kept[k] != [] {
      if k >= Leads(path).ups { assert Proper(Leads(path).down[k - Leads(path).ups]); }
    }
    if kept != [] { assert Join(kept) != []; }
  }

  lemma SpelledIsPlain(at: Location)
    requires AllProper(at.down)
    ensures AllPlain(Spelled(at))
  {
    forall k | 0 <= k < |Spelled(at)| ensures Plain(Spelled(at)[k]) {
      if k >= at.ups { assert Proper(at.down[k - at.ups]); }
    }
  }

  /** What the checks after normalisation see, when the path climbs and when it does not. */
  lemma ClimbsIffUpFirst(at: Location)
    requires AllProper(at.down) && Spelled(at) != []
    ensures var n := Join(Spelled(at));
            n != [] && n != HERE && n[0] != '/' && (at.ups > 0 <==> n == UP || "../" <= n)
  {
    var cs := Spelled(at);
    var n := Join(cs);
    SpelledIsPlain(at);
    SplitJoin(cs);
    SplitOne(HERE);
    SplitOne(UP);
    assert Split(n, '/') == cs;
    if at.ups > 0 {
      assert cs[0] == UP;
      if |cs| > 1 { assert n == UP + ['/'] + Join(cs[1..]) && n[..3] == "../"; }
    } else {
      assert Proper(cs[0]) by { assert cs[0] == at.down[0]; }
      assert n[0] == cs[0][0] && Plain(cs[0]) && cs[0][0] in cs[0];
      if "../" <= n {
        assert n == UP + ['/'] + n[3..];
        SplitAt(UP, '/', n[3..]);
        assert false;
      }
    }
  }

  /* ---- The results ---- */

  predicate Acceptable(path: string, allowDot: bool) {
    && 0 as char !in path && '\\' !in path && (path == [] || path[0] != '/')
    && Leads(path).ups == 0 && (Leads(path).down == [] ==> allowDot)
  }

  /** Main result 1. A path is accepted if and only if it has no NUL, no backslash and no leading
      slash and leads into the workspace, or to it when that is allowed. The answer spells the
      place it leads to. */
  lemma AcceptsIff(path: string, allowDot: bool)
    ensures Validate(path, allowDot).Ok? <==> Acceptable(path, allowDot)
    ensures Acceptable(path, allowDot) ==>
              Validate(path, allowDot) == Ok(if Leads(path).down == [] then HERE else Join(Leads(path).down))
  {
    NormSpells(path);
    var at := Leads(path);
    if Spelled(at) != [] { ClimbsIffUpFirst(at); }
    if at.ups == 0 { assert Spelled(at) == at.down; }
    if path == [] { assert Leads(path) == Walk(WORKSPACE, []); }
  }

  /** Main result 2. An accepted path is "." (only when allowed) or a non-empty list of segments of
      which none is empty, "." or "..", and it leads where the input leads. */
  lemma AcceptedIsClean(path: string, allowDot: bool)
    requires Validate(path, allowDot).Ok?
    ensures var r := Validate(path, allowDot).path;
            && Leads(r) == Leads(path) && Leads(r).ups == 0
            && (if r == HERE then allowDot else AllProper(Split(r, '/')) && Leads(r).down == Split(r, '/'))
  {
    AcceptsIff(path, allowDot);
    NormSpells(path);
    var at := Leads(path);
    if at.down == [] {
      SplitOne(HERE);
      assert Leads(HERE) == Walk(WORKSPACE, HERE);
    } else {
      assert Spelled(at) == at.down;
      SpelledIsPlain(at);
      SplitJoin(at.down);
      WalksItself([], at.down);
      assert [] + at.down == at.down;
      SplitOne(HERE);
    }
  }

  lemma {:induction false} WalksItself(before: seq<string>, cs: seq<string>)
    requires AllProper(cs)
    ensures WalkAll(Location(0, before), cs) == Location(0, before + cs)
    decreases |cs|
  {
    if cs == [] {
      assert before + cs == before;
    } else {
      WalksItself(before + [cs[0]], cs[1..]);
      assert before + [cs[0]] + cs[1..] == before + cs;
    }
  }

  lemma {:induction false} SplitChars(s: string, c: char, k: nat)
    requires k < |Split(s, '/')| && c in Split(s, '/')[k]
    ensures c in s
    decreases |s|
  {
    if s != [] {
      var r := Split(s[1..], '/');
      if s[0] == '/' {
        if k > 0 { SplitChars(s[1..], c, k - 1); }
      } else if k > 0 {
        SplitChars(s[1..], c, k);
      } else if c in r[0] {
        SplitChars(s[1..], c, 0);
      }
    }
  }

  lemma {:induction false} WalkChars(at: Location, cs: seq<string>, s: string)
    requires forall k, c :: 0 <= k < |cs| && c in cs[k] ==> c in s
    requires forall k, c :: 0 <= k < |at.down| && c in at.down[k] ==> c in s
    ensures forall k, c :: 0 <= k < |WalkAll(at, cs).down| && c in WalkAll(at, cs).down[k] ==> c in s
    decreases |cs|
  {
    if cs != [] {
      assert forall k, c :: 0 <= k < |cs[1..]| && c in cs[1..][k] ==> c in s by {
        forall k, c | 0 <= k < |cs[1..]| && c in cs[1..][k] ensures c in s { assert c in cs[k + 1]; }
      }
      WalkChars(Walk(at, cs[0]), cs[1..], s);
    }
  }

  lemma {:induction false} JoinChars(cs: seq<string>, c: char)
    requires c in Join(cs)
    ensures c == '/' || exists k :: 0 <= k < |cs| && c in cs[k]
    decreases |cs|
  {
    if |cs| > 1 && c !in cs[0] && c != '/' {
      JoinChars(cs[1..], c);
      var k :| 0 <= k < |cs[1..]| && c in cs[1..][k];
      assert c in cs[k + 1];
    }
  }

  /** The answer uses no character that the input did not use, besides "/" and ".". */
  lemma AnswerChars(path: string, c: char)
    requires c in Join(Leads(path).down) && c != '/'
    ensures c in path
  {
    forall k, x | 0 <= k < |Split(path, '/')| && x in Split(path, '/')[k] ensures x in path { SplitChars(path, x, k); }
    WalkChars(WORKSPACE, Split(path, '/'), path);
    JoinChars(Leads(path).down, c);
  }

  /** Main result 3. Validating an accepted path again returns it unchanged, so accepted paths are
      canonical: two inputs have the same answer exactly when they lead to the same place. */
  lemma ValidateIsIdempotent(path: string, allowDot: bool)
    requires Validate(path, allowDot).Ok?
    ensures Validate(Validate(path, allowDot).path, allowDot) == Validate(path, allowDot)
  {
    AcceptsIff(path, allowDot);
    AcceptedIsClean(path, allowDot);
    var r := Validate(path, allowDot).path;
    AcceptsIff(r, allowDot);
    if Leads(path).down != [] {
      if 0 as char in r { AnswerChars(path, 0 as char); }
      if '\\' in r { AnswerChars(path, '\\'); }
      NormSpells(path);
      assert Spelled(Leads(path)) == Leads(path).down;
      ClimbsIffUpFirst(Leads(path));
    }
  }

  lemma SameAnswerIffSamePlace(a: string, b: string, allowDot: bool)
    requires Validate(a, allowDot).Ok? && Validate(b, allowDot).Ok?
    ensures Validate(a, allowDot) == Validate(b, allowDot) <==> Leads(a) == Leads(b)
  {
    AcceptsIff(a, allowDot);
    AcceptsIff(b, allowDot);
    AcceptedIsClean(a, allowDot);
    AcceptedIsClean(b, allowDot);
  }

  lemma {:induction false} WalkConcat(at: Location, a: seq<string>, b: seq<string>)
    ensures WalkAll(at, a + b) == WalkAll(WalkAll(at, a), b)
    decreases |a|
  {
    if a == [] {
      assert a + b == b;
    } else {
      assert (a + b)[0] == a[0] && (a + b)[1..] == a[1..] + b;
      WalkConcat(Walk(at, a[0]), a[1..], b);
    }
  }

  function Steps(at: Location, segments: seq<string>): Location
    decreases |segments|
  {
    if segments == [] then at else Steps(WalkAll(at, Split(segments[0], '/')), segments[1..])
  }

  lemma {:induction false} JoinSteps(at: Location, segments: seq<string>)
    requires segments != []
    ensures WalkAll(at, Split(Join(segments), '/')) == Steps(at, segments)
    decreases |segments|
  {
    if |segments| > 1 {
      SplitAt(segments[0], '/', Join(segments[1..]));
      WalkConcat(at, Split(segments[0], '/'), Split(Join(segments[1..]), '/'));
      JoinSteps(WalkAll(at, Split(segments[0], '/')), segments[1..]);
    } else {
      assert Steps(at, segments) == Steps(WalkAll(at, Split(segments[0], '/')), []);
    }
  }

  /** Main result 4. A joined path is accepted only if following its segments one after the other,
      each from where the last one led, ends strictly inside the workspace, and it leads there. */
  lemma JoinStaysInside(segments: seq<string>)
    requires segments != [] && JoinWorkspace(segments).Ok?
    ensures var there := Steps(WORKSPACE, segments);
            there.ups == 0 && there.down != [] && JoinWorkspace(segments) == Ok(Join(there.down))
  {
    AcceptsIff(Join(segments), false);
    JoinSteps(WORKSPACE, segments);
  }
}
