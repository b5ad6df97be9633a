/**
 * The bot's command context (cogs/context.py): the status emoji of
 * `tick`, the aligned listing of `entry_to_code`, the numbered-choice rule
 * of `disambiguate`, and the lazily held database connection.
 * Sending messages is not modelled; the replies a user gives are inputs.
 */
module Context {
  import opened Common
  import opened Strings

  /** The emoji of `tick` (cogs/context.py:108-112): a heavy check mark
    * with its emoji presentation selector, a cross mark, a no-entry sign. */
  function Emoji(opt: Option<bool>): (e: string)
    ensures |e| >= 1
  {
    match opt
    case Some(true) => "✔️"
    case Some(false) => "❌"
    case None => "\U{1F6AB}"
  }

  /** `tick` (cogs/context.py:107-116): the emoji alone, or followed by
    * `: ` and the caption. */
  function Tick(opt: Option<bool>, caption: Option<string>): (r: string)
    ensures caption.None? ==> r == Emoji(opt)
    ensures caption.Some? ==> EndsWith(r, ": " + caption.value) && StartsWith(r, Emoji(opt))
  {
    match caption
    case None => Emoji(opt)
    case Some(l) =>
      var r := Emoji(opt) + ": " + l;
      assert r[|r| - |": " + l|..] == ": " + l;
      assert r[..|Emoji(opt)|] == Emoji(opt);
      r
  }

  /** The three states get three different emoji, told apart by their
    * first character. */
  lemma EmojiDistinct(a: Option<bool>, b: Option<bool>)
    requires a != b
    ensures Emoji(a)[0] != Emoji(b)[0]
  {
  }

  /** A labelled tick can be read back: the emoji gives the state and the
    * rest the caption. */
  lemma TickInjective(a: Option<bool>, b: Option<bool>, la: string, lb: string)
    requires Tick(a, Some(la)) == Tick(b, Some(lb))
    ensures a == b && la == lb
  {
    var t := Tick(a, Some(la));
    assert t[0] == Emoji(a)[0] && t[0] == Tick(b, Some(lb))[0] == Emoji(b)[0];
    if a != b {
      EmojiDistinct(a, b);
    }
    var n := |Emoji(a)| + 2;
    assert t[n..] == la;
    assert Tick(b, Some(lb))[n..] == lb;
  }

  /** The widest name (`max(len(a) for a, b in entries)`). */
  function NameWidth(entries: seq<(string, string)>): (w: nat)
    requires entries != []
    ensures forall i :: 0 <= i < |entries| ==> |entries[i].0| <= w
    ensures exists i :: 0 <= i < |entries| && |entries[i].0| == w
  {
    if |entries| == 1 then |entries[0].0|
    else
      var w := NameWidth(entries[..|entries| - 1]);
      var last := |entries[|entries| - 1].0|;
      assert forall i :: 0 <= i < |entries| - 1 ==> entries[..|entries| - 1][i] == entries[i];
      if w >= last then w else last
  }

  /** One listing line: the name padded to `width`, `: `, the entry. */
  function EntryLine(name: string, entry: string, width: nat): string
  {
    PadRight(name, width) + ": " + entry
  }

  /** The lines between the fences (cogs/context.py:37-39). */
  function EntryLines(entries: seq<(string, string)>, width: nat): (lines: seq<string>)
    ensures |lines| == |entries|
    ensures forall i :: 0 <= i < |lines| ==> lines[i] == EntryLine(entries[i].0, entries[i].1, width)
  {
    if entries == [] then []
    else EntryLines(entries[..|entries| - 1], width) + [EntryLine(entries[|entries| - 1].0, entries[|entries| - 1].1, width)]
  }

  datatype ListingError = NoEntries

  /** `entry_to_code` (cogs/context.py:35-40): the entries as a fenced
    * block, every name padded to the widest. With no entries `max`
    * raises. */
  function EntryToCode(entries: seq<(string, string)>): (r: Result<string, ListingError>)
    ensures entries == [] <==> r.Err?
  {
    if entries == [] then Err(NoEntries)
    else Ok(Join('\n', ["```"] + EntryLines(entries, NameWidth(entries)) + ["```"]))
  }

  /** Every line of a listing puts its `: ` in the same column, right
    * after the widest name, and starts with its own name. */
  lemma EntryLinesAligned(entries: seq<(string, string)>, i: nat)
    requires entries != [] && i < |entries|
    ensures var w := NameWidth(entries);
      var line := EntryLines(entries, w)[i];
      |line| >= w + 2 && line[w..w + 2] == ": " && line[..|entries[i].0|] == entries[i].0
      && line[w + 2..] == entries[i].1
  {
    var w := NameWidth(entries);
    var name := entries[i].0;
    var line := EntryLines(entries, w)[i];
    var padded := PadRight(name, w);
    assert |padded| == w;
    assert line == padded + ": " + entries[i].1;
    assert line[..|name|] == padded[..|name|];
  }

  /** A listing is the entries' lines, one per entry, inside two fences. */
  lemma EntryToCodeLines(entries: seq<(string, string)>)
    requires entries != []
    ensures EntryToCode(entries).value
         == Join('\n', ["```"] + EntryLines(entries, NameWidth(entries)) + ["```"])
    ensures Split(EntryToCode(entries).value, '\n')[0] == "```"
  {
    var lines := ["```"] + EntryLines(entries, NameWidth(entries)) + ["```"];
    JoinCons('\n', lines);
    assert lines[0] == "```";
    SplitJoinHead(lines[0], Join('\n', lines[1..]), '\n');
  }

  /** The first piece of a split is everything before the first
    * separator. */
  lemma {:induction false} SplitJoinHead(a: string, b: string, sep: char)
    requires sep !in a
    ensures Split(a + [sep] + b, sep)[0] == a
    decreases |a|
  {
    if a == [] {
      assert a + [sep] + b == [sep] + b;
    } else {
      var s := a + [sep] + b;
      assert s[0] == a[0] && s[1..] == a[1..] + [sep] + b;
      assert sep !in a[1..] by {
        forall k | 0 <= k < |a[1..]| ensures a[1..][k] != sep {
          assert a[1..][k] == a[k + 1];
        }
      }
      SplitJoinHead(a[1..], b, sep);
      assert a == [a[0]] + a[1..];
    }
  }

  datatype ChoiceError = NoResults | TookTooLong | TooManyTries | NotANumber

  /** A reply `disambiguate` sees: none within thirty seconds, a string of
    * decimal digits and the number it spells, or one that passes
    * `str.isdigit()` but that `int()` rejects (superscript digits such as
    * `²`). Messages that fail `check` never reach the loop. */
  datatype Reply = Silence | Digits(value: nat) | NotDecimal

  /** The number of replies `disambiguate` waits for. */
  const Tries: nat := 3

  /** What the `attempt`-th and later prompts settle on
    * (cogs/context.py:82-94): a missing reply is a timeout, reply `n`
    * picks `matches[n - 1]` by Python's indexing, a number out of range
    * costs one of the three tries, and the `ValueError` of `int()` ends
    * the choice. */
  function PickFrom<T>(matches: seq<T>, replies: seq<Reply>, attempt: nat): (r: Result<T, ChoiceError>)
    requires matches != []
    ensures r.Ok? ==> r.value in matches
    ensures r.Err? ==> r.error != NoResults
    ensures r == Err(NotANumber) ==> exists k :: attempt <= k < Tries && k < |replies| && replies[k] == NotDecimal
    decreases Tries - attempt
  {
    if attempt >= Tries then Err(TooManyTries)
    else if attempt >= |replies| || replies[attempt].Silence? then Err(TookTooLong)
    else if replies[attempt].NotDecimal? then Err(NotANumber)
    else match PyIndex(replies[attempt].value as int - 1, |matches|)
      case Some(k) => Ok(matches[k])
      case None => PickFrom(matches, replies, attempt + 1)
  }

  /** The choice of `disambiguate` (cogs/context.py:66-94). */
  function Choice<T>(matches: seq<T>, replies: seq<Reply>): (r: Result<T, ChoiceError>)
    ensures matches == [] <==> r == Err(NoResults)
    ensures |matches| == 1 ==> r == Ok(matches[0])
    ensures r.Ok? ==> r.value in matches
  {
    if matches == [] then Err(NoResults)
    else if |matches| == 1 then Ok(matches[0])
    else PickFrom(matches, replies, 0)
  }

  /** Only the first three replies matter. */
  lemma {:induction false} PickFromFirstThree<T>(matches: seq<T>, replies: seq<Reply>, attempt: nat)
    requires matches != [] && |replies| >= Tries
    ensures PickFrom(matches, replies, attempt) == PickFrom(matches, replies[..Tries], attempt)
    decreases Tries - attempt
  {
    if attempt < Tries {
      assert replies[..Tries][attempt] == replies[attempt];
      PickFromFirstThree(matches, replies, attempt + 1);
    }
  }

  /** Replying 0 picks the last match, as `matches[-1]` does. */
  lemma ZeroPicksLast<T>(matches: seq<T>, replies: seq<Reply>)
    requires |matches| >= 2 && replies != [] && replies[0] == Digits(0)
    ensures Choice(matches, replies) == Ok(matches[|matches| - 1])
  {
  }

  /** Running out of tries means all three replies came and were out of
    * range. */
  lemma {:induction false} TooManyTriesMeansThreeBadReplies<T>(matches: seq<T>, replies: seq<Reply>, attempt: nat)
    requires matches != [] && attempt <= Tries
    requires PickFrom(matches, replies, attempt) == Err(TooManyTries)
    ensures forall k :: attempt <= k < Tries ==>
      k < |replies| && replies[k].Digits? && PyIndex(replies[k].value - 1, |matches|).None?
    decreases Tries - attempt
  {
    if attempt < Tries {
      TooManyTriesMeansThreeBadReplies(matches, replies, attempt + 1);
    }
  }

  /** What `ctx.db` gives (cogs/context.py:99-101). */
  datatype Handle = Connection(id: nat) | Pool

  class Context {
    /** `_db`: the connection this context holds, if any. */
    var db: Option<nat>

    constructor ()
      ensures db == None && Db() == Pool
    {
      db := None;
    }

    /** `db` (cogs/context.py:99-101): the held connection, or the pool. */
    function Db(): (h: Handle)
      reads this
      ensures h.Pool? <==> db.None?
      ensures h.Connection? ==> db == Some(h.id)
    {
      match db
      case Some(c) => Connection(c)
      case None => Pool
    }

    /** `_acquire` (cogs/context.py:103-106): takes `next` from the pool
      * only when nothing is held; either way returns the held
      * connection. */
    method Acquire(next: nat) returns (conn: nat)
      modifies this`db
      ensures old(db).Some? ==> db == old(db) && conn == old(db).value
      ensures old(db).None? ==> db == Some(next) && conn == next
      ensures db == Some(conn)
    {
      if db.None? {
        db := Some(next);
      }
      conn := db.value;
    }

    /** `release` (cogs/context.py:133-147): gives the held connection back
      * to the pool, if any, and holds nothing after. */
    method Release() returns (released: Option<nat>)
      modifies this`db
      ensures released == old(db)
      ensures db == None
    {
      released := db;
      db := None;
    }

    /** `disambiguate` (cogs/context.py:66-94) given the replies the user
      * sends. Before prompting it
      * releases its connection, and on the way out it acquires `next`. */
    method Disambiguate<T>(matches: seq<T>, replies: seq<Reply>, next: nat)
      returns (r: Result<T, ChoiceError>, released: Option<nat>)
      modifies this`db
      ensures r == Choice(matches, replies)
      ensures |matches| <= 1 ==> db == old(db) && released == None
      ensures |matches| > 1 ==> released == old(db) && db == Some(next)
    {
      released := None;
      if |matches| == 0 {
        return Err(NoResults), released;
      }
      if |matches| == 1 {
        return Ok(matches[0]), released;
      }
      released := Release();
      r := Err(TooManyTries);
      var i := 0;
      while i < Tries
        invariant 0 <= i <= Tries
        invariant PickFrom(matches, replies, 0) == PickFrom(matches, replies, i)
        invariant db == None
      {
        if i >= |replies| || replies[i].Silence? {
          r := Err(TookTooLong);
          break;
        }
        if replies[i].NotDecimal? {
          r := Err(NotANumber);
          break;
        }
        var index := replies[i].value;
        var k := PyIndex(index as int - 1, |matches|);
        if k.Some? {
          r := Ok(matches[k.value]);
          break;
        }
        i := i + 1;
      }
      var _ := Acquire(next);
    }
  }
}
