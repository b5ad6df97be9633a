/**
 * The owner-only admin cog (cogs/admin.py): stripping code fences from a
 * message, choosing which cogs to reload after `git pull`, the
 * one-REPL-per-channel bookkeeping, and the multi-statement test of `sql`.
 * Running code, shells and SQL is not part of this model.
 */
module Admin {
  import opened Common
  import opened Strings

  const Fence: string := "```"
  const StripChars: set<char> := {'`', ' ', '\n'}

  /** Python's `xs[1:-1]`: everything but the first and the last item. */
  function Inner<T>(xs: seq<T>): (r: seq<T>)
    ensures |xs| < 2 ==> r == []
    ensures |xs| >= 2 ==> |r| == |xs| - 2 && forall i :: 0 <= i < |r| ==> r[i] == xs[i + 1]
  {
    if |xs| < 2 then [] else xs[1..|xs| - 1]
  }

  predicate IsFenced(content: string)
  {
    StartsWith(content, Fence) && EndsWith(content, Fence)
  }

  /** `cleanup_code` (cogs/admin.py:106-113): a fenced block loses its
    * first and last lines; anything else loses the backticks, spaces and
    * newlines at both ends. */
  function CleanupCode(content: string): (r: string)
    ensures !IsFenced(content) ==> r == [] || (r[0] !in StripChars && r[|r| - 1] !in StripChars)
    ensures !IsFenced(content) ==> |r| <= |content|
  {
    if IsFenced(content) then Join('\n', Inner(Split(content, '\n')))
    else StripRight(StripLeft(content, StripChars), StripChars)
  }

  /** Only the fence characters are removed: everything around the kept
    * text is a backtick, a space or a newline. */
  lemma CleanupStripsOnlyFence(content: string) returns (a: nat)
    requires !IsFenced(content)
    ensures var r := CleanupCode(content);
      && a + |r| <= |content| && content[a..a + |r|] == r
      && (forall i :: 0 <= i < a ==> content[i] in StripChars)
      && (forall i :: a + |r| <= i < |content| ==> content[i] in StripChars)
  {
    assert CleanupCode(content) == Strip(content, StripChars);
    a := StripKeepsRun(content, StripChars);
  }

  /** Splitting at a separator splits the two sides independently. */
  lemma {:induction false} SplitConcat(a: string, b: string, sep: char)
    ensures Split(a + [sep] + b, sep) == Split(a, sep) + Split(b, sep)
    decreases |a|
  {
    if a == [] {
      assert a + [sep] + b == [sep] + b;
      assert ([sep] + b)[1..] == b;
    } else {
      var s := a + [sep] + b;
      assert s[0] == a[0] && s[1..] == a[1..] + [sep] + b;
      SplitConcat(a[1..], b, sep);
    }
  }

  lemma {:induction false} SplitNoSeparator(a: string, sep: char)
    requires sep !in a
    ensures Split(a, sep) == [a]
    decreases |a|
  {
    if a != [] {
      assert a[1..] == a[1..];
      assert sep !in a[1..] by {
        forall i | 0 <= i < |a[1..]| ensures a[1..][i] != sep {
          assert a[1..][i] == a[i + 1];
        }
      }
      SplitNoSeparator(a[1..], sep);
      assert a == [a[0]] + a[1..];
    }
  }

  /** A fenced block with a language tag gives back exactly its body. */
  lemma CleanupFenced(lang: string, body: string)
    requires '\n' !in lang
    ensures CleanupCode(Fence + lang + "\n" + body + "\n" + Fence) == body
  {
    var head := Fence + lang;
    var content := Fence + lang + "\n" + body + "\n" + Fence;
    assert content == head + ['\n'] + (body + ['\n'] + Fence);
    assert '\n' !in head by {
      forall i | 0 <= i < |head| ensures head[i] != '\n' {
        if i >= 3 {
          assert head[i] == lang[i - 3];
        }
      }
    }
    SplitNoSeparator(head, '\n');
    SplitNoSeparator(Fence, '\n');
    SplitConcat(head, body + ['\n'] + Fence, '\n');
    SplitConcat(body, Fence, '\n');
    var pieces := Split(content, '\n');
    assert pieces == [head] + Split(body, '\n') + [Fence];
    assert content[..3] == Fence;
    assert content[|content| - 3..] == Fence;
    assert Inner(pieces) == Split(body, '\n');
    JoinSplit(body, '\n');
  }

  /** `os.path.splitext` on a POSIX path: the extension is the part from
    * the last dot of the last path component, unless that component is
    * all dots before it (fewer dots than characters means a non-dot). */
  function SplitExt(p: string): (r: (string, string))
    ensures r.0 + r.1 == p
    ensures r.1 == [] || (r.1[0] == '.' && '/' !in r.1 && '.' !in r.1[1..])
  {
    var dot := LastIndex(p, '.');
    var slash := LastIndex(p, '/');
    if dot > slash && Count(p[slash + 1..dot], '.') < dot - slash - 1 then
      assert p == p[..dot] + p[dot..];
      var ext := p[dot..];
      assert '.' !in ext[1..] && '/' !in ext by {
        forall i | 0 <= i < |ext| ensures ext[i] != '/' && (i > 0 ==> ext[i] != '.') {
          assert ext[i] == p[dot + i];
        }
      }
      (p[..dot], p[dot..])
    else
      (p, "")
  }

  /** `s.rfind(c)`: the last position holding `c`, or -1. */
  function LastIndex(s: string, c: char): (i: int)
    ensures -1 <= i < |s|
    ensures i >= 0 ==> s[i] == c
    ensures forall k :: i < k < |s| ==> s[k] != c
  {
    if s == [] then -1
    else if s[|s| - 1] == c then |s| - 1
    else LastIndex(s[..|s| - 1], c)
  }

  /** A reload entry: how deep the module sits below `cogs`, and its
    * dotted name. */
  type Module = (int, string)

  /** A file `find_modules_from_git` keeps (cogs/admin.py:160-164). */
  predicate IsCogSource(file: string)
  {
    SplitExt(file).1 == ".py" && StartsWith(SplitExt(file).0, "cogs/")
  }

  /** The entry of a kept file (cogs/admin.py:165-166). */
  function ModuleOf(file: string): (m: Module)
    requires IsCogSource(file)
    ensures m.0 >= 0
    ensures '/' !in m.1 && |m.1| == |SplitExt(file).0|
  {
    var root := SplitExt(file).0;
    CountPrefix(root, "cogs/", '/');
    (Count(root, '/') - 1, Replace(root, '/', '.'))
  }

  lemma CountPrefix(s: string, prefix: string, c: char)
    requires StartsWith(s, prefix) && c in prefix
    ensures Count(s, c) >= 1
  {
    var k :| 0 <= k < |prefix| && prefix[k] == c;
    CountPositive(s, c, k);
  }

  lemma {:induction false} CountPositive(s: string, c: char, k: nat)
    requires k < |s| && s[k] == c
    ensures Count(s, c) >= 1
    decreases |s|
  {
    if k < |s| - 1 {
      CountPositive(s[..|s| - 1], c, k);
    }
  }

  /** The entries of the kept files, in the order `git` listed them. */
  function ModulesOf(files: seq<string>): (r: seq<Module>)
    ensures |r| <= |files|
  {
    if files == [] then []
    else
      var f := files[|files| - 1];
      ModulesOf(files[..|files| - 1]) + (if IsCogSource(f) then [ModuleOf(f)] else [])
  }

  /** `file` is kept and gives the entry `m`. */
  predicate Produces(file: string, m: Module)
  {
    IsCogSource(file) && m == ModuleOf(file)
  }

  /** An entry is listed exactly when some kept file produces it. */
  lemma {:induction false} ModulesOfMembers(files: seq<string>, m: Module)
    ensures m in ModulesOf(files) <==> exists j :: 0 <= j < |files| && Produces(files[j], m)
    decreases |files|
  {
    if files != [] {
      var init := files[..|files| - 1];
      var f := files[|files| - 1];
      ModulesOfMembers(init, m);
      assert m in ModulesOf(files) <==> m in ModulesOf(init) || Produces(f, m) by {
        assert ModulesOf(files) == ModulesOf(init) + (if IsCogSource(f) then [ModuleOf(f)] else []);
      }
      ExistsSnoc(files, init, m);
    }
  }

  /** Some file of `files` produces `m` exactly when some earlier one or
    * the last one does. */
  lemma ExistsSnoc(files: seq<string>, init: seq<string>, m: Module)
    requires files != [] && init == files[..|files| - 1]
    ensures (exists j :: 0 <= j < |files| && Produces(files[j], m))
        <==> (exists j :: 0 <= j < |init| && Produces(init[j], m)) || Produces(files[|files| - 1], m)
  {
    if exists j :: 0 <= j < |files| && Produces(files[j], m) {
      var j :| 0 <= j < |files| && Produces(files[j], m);
      if j < |files| - 1 {
        assert init[j] == files[j];
      }
    }
    if exists j :: 0 <= j < |init| && Produces(init[j], m) {
      var j :| 0 <= j < |init| && Produces(init[j], m);
      assert files[j] == init[j];
    }
  }

  /** Python's `<` on `(int, str)` tuples. */
  predicate ModuleLess(a: Module, b: Module)
  {
    a.0 < b.0 || (a.0 == b.0 && Less(a.1, b.1))
  }

  lemma ModuleLessTransitive(a: Module, b: Module, c: Module)
    requires ModuleLess(a, b) && ModuleLess(b, c)
    ensures ModuleLess(a, c)
  {
    if a.0 == b.0 && b.0 == c.0 {
      LessTransitive(a.1, b.1, c.1);
    }
  }

  lemma ModuleLessAsymmetric(a: Module, b: Module)
    requires ModuleLess(a, b)
    ensures !ModuleLess(b, a)
  {
    if a.0 == b.0 {
      LessAsymmetric(a.1, b.1);
    }
  }

  /** Sorted by `reverse=True`: no entry is smaller than a later one. */
  ghost predicate Descending(s: seq<Module>)
  {
    forall i, j :: 0 <= i < j < |s| ==> !ModuleLess(s[i], s[j])
  }

  function InsertModule(x: Module, s: seq<Module>): (r: seq<Module>)
    ensures multiset(r) == multiset(s) + multiset{x}
    decreases |s|
  {
    if s == [] then [x]
    else if ModuleLess(s[0], x) then [x] + s
    else
      assert s == [s[0]] + s[1..];
      [s[0]] + InsertModule(x, s[1..])
  }

  lemma {:induction false} InsertModuleDescending(x: Module, s: seq<Module>)
    requires Descending(s)
    ensures Descending(InsertModule(x, s))
    decreases |s|
  {
    if s == [] {
    } else if ModuleLess(s[0], x) {
      var r := [x] + s;
      forall j | 0 < j < |r| ensures !ModuleLess(x, r[j]) {
        if j == 1 {
          ModuleLessAsymmetric(s[0], x);
        } else {
          assert r[j] == s[j - 1];
          if ModuleLess(x, r[j]) {
            ModuleLessTransitive(s[0], x, r[j]);
          }
        }
      }
    } else {
      InsertModuleDescending(x, s[1..]);
      var t := InsertModule(x, s[1..]);
      var r := [s[0]] + t;
      forall j | 0 < j < |r| ensures !ModuleLess(s[0], r[j]) {
        assert r[j] in multiset(t);
        if r[j] != x {
          assert r[j] in multiset(s[1..]);
          var k :| 0 <= k < |s[1..]| && s[1..][k] == r[j];
          assert s[1..][k] == s[k + 1];
        }
      }
    }
  }

  /** `list.sort(reverse=True)` on the entries. */
  function SortModules(s: seq<Module>): (r: seq<Module>)
    ensures multiset(r) == multiset(s)
    ensures Descending(r)
    decreases |s|
  {
    if s == [] then []
    else
      assert s == s[..|s| - 1] + [s[|s| - 1]];
      InsertModuleDescending(s[|s| - 1], SortModules(s[..|s| - 1]));
      InsertModule(s[|s| - 1], SortModules(s[..|s| - 1]))
  }

  /** `find_modules_from_git` after the file names have been pulled out of
    * the `git pull` output (cogs/admin.py:157-169): the kept files' entries,
    * deepest modules first. */
  method FindModulesFromGit(files: seq<string>) returns (ret: seq<Module>)
    ensures Descending(ret)
    ensures multiset(ret) == multiset(ModulesOf(files))
  {
    ret := [];
    for i := 0 to |files|
      invariant ret == ModulesOf(files[..i])
    {
      assert files[..i + 1][..i] == files[..i];
      var (root, ext) := SplitExt(files[i]);
      if ext != ".py" {
        continue;
      }
      if StartsWith(root, "cogs/") {
        ret := ret + [ModuleOf(files[i])];
      }
    }
    assert files[..|files|] == files;
    ret := SortModules(ret);
  }

  /** How a `repl` command ends (cogs/admin.py:267-303). */
  datatype ReplOutcome = AlreadyRunning | Exited | StillRunning

  /** A message that ends a session: a timeout (`None`), or `quit`,
    * `exit` or `exit()` once cleaned (cogs/admin.py:290-303). */
  predicate EndsSession(reply: Option<string>)
  {
    reply.None? || CleanupCode(reply.value) in {"quit", "exit", "exit()"}
  }

  class Admin {
    /** The channels with a REPL session running. */
    var sessions: set<int>

    constructor ()
      ensures sessions == {}
    {
      sessions := {};
    }

    /** `repl` in `channel`, fed the owner's next messages in turn
      * (`None` for a ten-minute silence): refused when the channel already
      * has a session; otherwise the channel is held until a message ends
      * the session. Evaluating the other messages is not modelled. */
    method Repl(channel: int, replies: seq<Option<string>>) returns (outcome: ReplOutcome)
      modifies this`sessions
      ensures outcome == AlreadyRunning <==> channel in old(sessions)
      ensures outcome == Exited <==>
        channel !in old(sessions) && exists i :: 0 <= i < |replies| && EndsSession(replies[i])
      ensures outcome != StillRunning ==> sessions == old(sessions)
      ensures outcome == StillRunning ==> sessions == old(sessions) + {channel}
    {
      if channel in sessions {
        return AlreadyRunning;
      }
      sessions := sessions + {channel};
      var i := 0;
      while i < |replies|
        invariant 0 <= i <= |replies|
        invariant sessions == old(sessions) + {channel}
        invariant forall k :: 0 <= k < i ==> !EndsSession(replies[k])
      {
        var reply := replies[i];
        if reply.None? {
          sessions := sessions - {channel};
          return Exited;
        }
        var cleaned := CleanupCode(reply.value);
        if cleaned in {"quit", "exit", "exit()"} {
          sessions := sessions - {channel};
          return Exited;
        }
        i := i + 1;
      }
      return StillRunning;
    }
  }

  /** The test `sql` uses to pick `execute` over `fetch`
    * (cogs/admin.py:365-367). */
  predicate IsMultistatement(query: string)
  {
    Count(CleanupCode(query), ';') > 1
  }

  /** More than one `;` means two distinct positions holding one. */
  lemma {:induction false} CountAtLeastTwo(s: string, c: char)
    ensures Count(s, c) > 1 <==> exists i, j :: 0 <= i < j < |s| && s[i] == c && s[j] == c
    decreases |s|
  {
    if s != [] {
      var init := s[..|s| - 1];
      CountAtLeastTwo(init, c);
      if Count(s, c) > 1 {
        if Count(init, c) > 1 {
          var i, j :| 0 <= i < j < |init| && init[i] == c && init[j] == c;
          assert s[i] == c && s[j] == c;
        } else {
          assert s[|s| - 1] == c && Count(init, c) == 1;
          CountOneHasPosition(init, c);
          var i :| 0 <= i < |init| && init[i] == c;
          assert s[i] == c;
        }
      } else if exists i, j :: 0 <= i < j < |s| && s[i] == c && s[j] == c {
        var i, j :| 0 <= i < j < |s| && s[i] == c && s[j] == c;
        assert init[i] == c;
        if j < |s| - 1 {
          assert init[j] == c;
        } else {
          CountPositive(init, c, i);
        }
      }
    }
  }

  lemma {:induction false} CountOneHasPosition(s: string, c: char)
    requires Count(s, c) >= 1
    ensures exists i :: 0 <= i < |s| && s[i] == c
    decreases |s|
  {
    if s[|s| - 1] != c {
      CountOneHasPosition(s[..|s| - 1], c);
      var i :| 0 <= i < |s| - 1 && s[..|s| - 1][i] == c;
      assert s[i] == c;
    }
  }

  /** `sql` runs a query as several statements exactly when its cleaned
    * text has two semicolons. */
  lemma MultistatementMeansTwoSemicolons(query: string)
    ensures IsMultistatement(query) <==>
      exists i, j :: 0 <= i < j < |CleanupCode(query)| && CleanupCode(query)[i] == ';' && CleanupCode(query)[j] == ';'
  {
    CountAtLeastTwo(CleanupCode(query), ';');
  }
}
