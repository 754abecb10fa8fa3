/** The conversation context `handleTextMessage` sends to the completion
    API: a system persona turn, the fetched chat history in reverse of the
    order it was fetched (skipping the message being answered), and the
    current message as the last user turn. */
module ContextBuilder {
  import opened Classifier

  /** `chat.fetchMessages({ limit: 10 })`. */
  const FetchLimit: nat := 10

  /** The parts of a fetched history message the bot reads: `id.id`,
      `fromMe` and `body`. */
  datatype HistoryEntry = HistoryEntry(id: string, fromMe: bool, body: string)

  datatype Role = System | User | Assistant

  datatype Turn = Turn(role: Role, content: string)

  /** One history entry as a turn: the bot's own messages are the assistant's. */
  function TurnOf(e: HistoryEntry): (t: Turn)
    ensures t.role != System
    ensures t.role == Assistant <==> e.fromMe
    ensures t.content == e.body
  {
    Turn(if e.fromMe then Assistant else User, e.body)
  }

  function Reverse<T>(s: seq<T>): (r: seq<T>)
    ensures |r| == |s|
  {
    if s == [] then [] else Reverse(s[1..]) + [s[0]]
  }

  /** The turns the loop pushes while it visits `visited` in order: every
      entry whose id is not `skip`, turned into a turn. */
  function Prior(visited: seq<HistoryEntry>, skip: string): seq<Turn>
    decreases |visited|
  {
    if visited == [] then []
    else
      var last := visited[|visited| - 1];
      Prior(visited[..|visited| - 1], skip) + (if last.id == skip then [] else [TurnOf(last)])
  }

  /** The message list of `handleTextMessage`. */
  function Context(persona: string, history: seq<HistoryEntry>, msg: Message): seq<Turn> {
    [Turn(System, persona)] + Prior(Reverse(history), msg.id) + [Turn(User, msg.body)]
  }

  /** Builds the message list the way the source does: start from the
      persona turn, walk the reversed history pushing one turn per entry
      that is not the current message, then push the current message. */
  method BuildMessages(persona: string, history: seq<HistoryEntry>, msg: Message)
    returns (messages: seq<Turn>)
    ensures messages == Context(persona, history, msg)
  {
    var reversed := Reverse(history);
    messages := [Turn(System, persona)];
    for i := 0 to |reversed|
      invariant messages == [Turn(System, persona)] + Prior(reversed[..i], msg.id)
    {
      assert reversed[..i + 1][..i] == reversed[..i];
      var message := reversed[i];
      if message.id == msg.id {
        continue;
      }
      if message.fromMe {
        messages := messages + [Turn(Assistant, message.body)];
      } else {
        messages := messages + [Turn(User, message.body)];
      }
    }
    assert reversed[..|reversed|] == reversed;
    messages := messages + [Turn(User, msg.body)];
  }

  // ---- Reverse ----

  /** Element `k` of the reversed sequence is element `|s| - 1 - k` of `s`. */
  lemma {:induction false} ReverseAt<T>(s: seq<T>, k: nat)
    requires k < |s|
    ensures Reverse(s)[k] == s[|s| - 1 - k]
  {
    if k < |s| - 1 {
      ReverseAt(s[1..], k);
    }
  }

  lemma {:induction false} ReverseAppend<T>(a: seq<T>, b: seq<T>)
    ensures Reverse(a + b) == Reverse(b) + Reverse(a)
    decreases |a|
  {
    if a == [] {
      assert a + b == b;
    } else {
      assert (a + b)[1..] == a[1..] + b;
      ReverseAppend(a[1..], b);
    }
  }

  // ---- Prior ----

  /** Pushing is compositional: visiting `a` then `b` pushes the turns of `a`
      and then those of `b`. */
  lemma {:induction false} PriorAppend(a: seq<HistoryEntry>, b: seq<HistoryEntry>, skip: string)
    ensures Prior(a + b, skip) == Prior(a, skip) + Prior(b, skip)
    decreases |b|
  {
    if b == [] {
      assert a + b == a;
    } else {
      var n := |b| - 1;
      assert (a + b)[..|a + b| - 1] == a + b[..n];
      assert (a + b)[|a + b| - 1] == b[n];
      PriorAppend(a, b[..n], skip);
    }
  }

  /** No pushed history turn has the system role. */
  lemma {:induction false} PriorHasNoSystem(visited: seq<HistoryEntry>, skip: string)
    ensures forall t :: t in Prior(visited, skip) ==> t.role != System
    decreases |visited|
  {
    if visited != [] {
      PriorHasNoSystem(visited[..|visited| - 1], skip);
    }
  }

  /** A turn is pushed exactly for the visited entries whose id differs from
      the skipped one. */
  lemma {:induction false} PriorMembers(visited: seq<HistoryEntry>, skip: string, t: Turn)
    ensures t in Prior(visited, skip) <==> exists e :: e in visited && e.id != skip && TurnOf(e) == t
    decreases |visited|
  {
    if visited != [] {
      var init, last := visited[..|visited| - 1], visited[|visited| - 1];
      PriorMembers(init, skip, t);
      assert visited == init + [last];
      if t in Prior(visited, skip) && !(t in Prior(init, skip)) {
        assert last.id != skip && TurnOf(last) == t;
      }
      if e :| e in visited && e.id != skip && TurnOf(e) == t {
        if e != last {
          assert e in init;
        }
      }
    }
  }

  /** When no visited entry is the skipped one, every entry is pushed, in
      visiting order. */
  lemma {:induction false} PriorWithoutSkipped(visited: seq<HistoryEntry>, skip: string)
    requires forall k :: 0 <= k < |visited| ==> visited[k].id != skip
    ensures |Prior(visited, skip)| == |visited|
    ensures forall k :: 0 <= k < |visited| ==> Prior(visited, skip)[k] == TurnOf(visited[k])
    decreases |visited|
  {
    if visited != [] {
      PriorWithoutSkipped(visited[..|visited| - 1], skip);
    }
  }

  /** At most one turn is pushed per visited entry, and exactly one fewer
      than there are entries for every entry carrying the skipped id. */
  lemma {:induction false} PriorLength(visited: seq<HistoryEntry>, skip: string)
    ensures |Prior(visited, skip)| == |visited| - CountId(visited, skip)
    decreases |visited|
  {
    if visited != [] {
      PriorLength(visited[..|visited| - 1], skip);
    }
  }

  /** How many entries carry the given id. */
  function CountId(visited: seq<HistoryEntry>, id: string): (n: nat)
    ensures n <= |visited|
    decreases |visited|
  {
    if visited == [] then 0
    else CountId(visited[..|visited| - 1], id) + (if visited[|visited| - 1].id == id then 1 else 0)
  }

  // ---- The assembled context ----

  /** The persona is the first turn, the current message the last one, and
      no other turn has the system role. */
  lemma ContextShape(persona: string, history: seq<HistoryEntry>, msg: Message)
    ensures var c := Context(persona, history, msg);
      |c| >= 2 && c[0] == Turn(System, persona) && c[|c| - 1] == Turn(User, msg.body) &&
      forall k :: 0 < k < |c| ==> c[k].role != System
  {
    var c := Context(persona, history, msg);
    var mid := Prior(Reverse(history), msg.id);
    PriorHasNoSystem(Reverse(history), msg.id);
    forall k | 0 < k < |c| ensures c[k].role != System {
      if k < |c| - 1 {
        assert c[k] == mid[k - 1];
      }
    }
  }

  /** The context has one turn for each fetched entry that is not the current
      message, plus two; with the fetch limit of ten it never exceeds twelve. */
  lemma ContextLength(persona: string, history: seq<HistoryEntry>, msg: Message)
    ensures |Context(persona, history, msg)| == |history| + 2 - CountId(history, msg.id)
    ensures |Context(persona, history, msg)| <= |history| + 2
    ensures |history| <= FetchLimit ==> |Context(persona, history, msg)| <= FetchLimit + 2
  {
    PriorLength(Reverse(history), msg.id);
    CountIdOfReverse(history, msg.id);
  }

  lemma {:induction false} CountIdOfReverse(s: seq<HistoryEntry>, id: string)
    ensures CountId(Reverse(s), id) == CountId(s, id)
    decreases |s|
  {
    if s != [] {
      CountIdOfReverse(s[1..], id);
      CountIdAppend(Reverse(s[1..]), [s[0]], id);
      CountIdAppend([s[0]], s[1..], id);
      assert [s[0]] + s[1..] == s;
    }
  }

  lemma {:induction false} CountIdAppend(a: seq<HistoryEntry>, b: seq<HistoryEntry>, id: string)
    ensures CountId(a + b, id) == CountId(a, id) + CountId(b, id)
    decreases |b|
  {
    if b == [] {
      assert a + b == a;
    } else {
      var n := |b| - 1;
      assert (a + b)[..|a + b| - 1] == a + b[..n];
      assert (a + b)[|a + b| - 1] == b[n];
      CountIdAppend(a, b[..n], id);
    }
  }

  /** With an empty history (or history disabled) the context is exactly the
      persona and the current message. */
  lemma EmptyHistoryContext(persona: string, msg: Message)
    ensures Context(persona, [], msg) == [Turn(System, persona), Turn(User, msg.body)]
  {
  }

  /** When the fetched history does not contain the current message, the
      middle of the context is the whole history, last fetched first:
      turn `k` (for `1 <= k <= |history|`) is fetched entry `|history| - k`. */
  lemma ContextReversesHistory(persona: string, history: seq<HistoryEntry>, msg: Message)
    requires forall k :: 0 <= k < |history| ==> history[k].id != msg.id
    ensures var c := Context(persona, history, msg);
      |c| == |history| + 2 &&
      forall k :: 1 <= k <= |history| ==> c[k] == TurnOf(history[|history| - k])
  {
    var r := Reverse(history);
    forall k | 0 <= k < |r| ensures r[k].id != msg.id {
      ReverseAt(history, k);
    }
    PriorWithoutSkipped(r, msg.id);
    var c := Context(persona, history, msg);
    forall k | 1 <= k <= |history| ensures c[k] == TurnOf(history[|history| - k]) {
      ReverseAt(history, k - 1);
      assert c[k] == Prior(r, msg.id)[k - 1];
    }
  }

  /** A turn from the history is in the context exactly when some fetched
      entry other than the current message produced it: the current message
      appears only once, as the final turn. */
  lemma ContextHistoryMembers(persona: string, history: seq<HistoryEntry>, msg: Message, t: Turn)
    ensures t in Context(persona, history, msg)[1..|Context(persona, history, msg)| - 1] <==>
      exists e :: e in history && e.id != msg.id && TurnOf(e) == t
  {
    var r := Reverse(history);
    PriorMembers(r, msg.id, t);
    assert Context(persona, history, msg)[1..|Context(persona, history, msg)| - 1] == Prior(r, msg.id);
    ReverseSameElements(history);
  }

  lemma ReverseSameElements<T>(s: seq<T>)
    ensures forall x :: x in Reverse(s) <==> x in s
  {
    forall x ensures x in Reverse(s) <==> x in s {
      if x in s {
        var i :| 0 <= i < |s| && s[i] == x;
        ReverseAt(s, |s| - 1 - i);
      }
      if x in Reverse(s) {
        var k :| 0 <= k < |s| && Reverse(s)[k] == x;
        ReverseAt(s, k);
      }
    }
  }

  /** History is reversed, not re-sorted: if the chat history was fetched as
      `older` followed by `newer`, the turns of `newer` come first. */
  lemma ContextOfSplitHistory(persona: string, older: seq<HistoryEntry>, newer: seq<HistoryEntry>, msg: Message)
    ensures Context(persona, older + newer, msg) ==
      [Turn(System, persona)] + Prior(Reverse(newer), msg.id) + Prior(Reverse(older), msg.id) + [Turn(User, msg.body)]
  {
    var sys, cur := [Turn(System, persona)], [Turn(User, msg.body)];
    var pn, po := Prior(Reverse(newer), msg.id), Prior(Reverse(older), msg.id);
    assert Prior(Reverse(older + newer), msg.id) == pn + po by {
      ReverseAppend(older, newer);
      PriorAppend(Reverse(newer), Reverse(older), msg.id);
    }
    assert sys + (pn + po) + cur == sys + pn + po + cur;
  }

  /** The usual case: `fetchMessages` returns the message being answered as
      its newest entry. It is skipped, and the earlier entries follow the
      persona newest first: turn `k` is entry `|older| - k`. */
  lemma ContextSkipsCurrentNewest(persona: string, older: seq<HistoryEntry>, current: HistoryEntry, msg: Message)
    requires current.id == msg.id
    requires forall k :: 0 <= k < |older| ==> older[k].id != msg.id
    ensures var c := Context(persona, older + [current], msg);
      |c| == |older| + 2 && c[|c| - 1] == Turn(User, msg.body) &&
      forall k :: 1 <= k <= |older| ==> c[k] == TurnOf(older[|older| - k])
  {
    ContextOfSplitHistory(persona, older, [current], msg);
    assert Reverse([current]) == [current];
    assert Prior([current], msg.id) == [] by {
      assert [current][..0] == [];
    }
    assert Context(persona, older + [current], msg) == Context(persona, older, msg);
    ContextReversesHistory(persona, older, msg);
  }
}
