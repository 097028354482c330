/** Expanding the active segments gives the history back, recollection exchanges aside. */
module Recall {
  import opened Wrappers
  import opened Messages
  import opened ArchiveWalks
  import opened ContextArchive
  import opened Provenance
  import opened Compactor
  import opened Conversation
  import opened Attempts
  import opened Session

  /** The expansion of a walk, node after node, without the last sources the ledger counts as testimony. */
  function Strip(nodes: seq<Node>, trim: map<SummaryId, nat>, order: seq<SummaryId>,
                 expansion: seq<Message>): seq<Message>
    decreases |order|
  {
    if order == [] then expansion
    else
      var all, own := |Sources(nodes, order[0])|, |Own(nodes, trim, order[0])|;
      if all > |expansion| || own > all then expansion
      else expansion[..own] + Strip(nodes, trim, order[1..], expansion[all..])
  }

  /** What expansion shows of one segment: the stored messages beneath it, exchanges stripped. */
  function Recalled(t: Tables, trim: map<SummaryId, nat>, id: SummaryId): seq<Message> {
    Strip(t.nodes, trim, PostWalk(t.nodes, [id], {}).order, Lookup(t.messages, Expansion(t.nodes, id)))
  }

  function RecalledAll(t: Tables, trim: map<SummaryId, nat>, ids: seq<SummaryId>): seq<Message>
    decreases |ids|
  {
    if ids == [] then [] else Recalled(t, trim, ids[0]) + RecalledAll(t, trim, ids[1..])
  }

  lemma {:induction false} OwnIsPrefix(nodes: seq<Node>, trim: map<SummaryId, nat>, x: SummaryId)
    ensures Own(nodes, trim, x) <= Sources(nodes, x)
  {
  }

  lemma {:induction false} StripPart(own: seq<MessageId>, all: seq<MessageId>, rest: seq<MessageId>)
    requires own <= all
    ensures Originals(all + rest)[..|own|] == Originals(own) && Originals(all + rest)[|all|..] == Originals(rest)
  {
  }

  /** Stripping the expansion of a walk leaves exactly the sources the history is made of. */
  lemma {:induction false} StripLeavesOwn(nodes: seq<Node>, trim: map<SummaryId, nat>, order: seq<SummaryId>)
    ensures Strip(nodes, trim, order, Originals(MessageIds(nodes, order))) == Originals(OwnIds(nodes, trim, order))
    decreases |order|
  {
    if order != [] {
      var all, own := Sources(nodes, order[0]), Own(nodes, trim, order[0]);
      OwnIsPrefix(nodes, trim, order[0]);
      StripPart(own, all, MessageIds(nodes, order[1..]));
      StripLeavesOwn(nodes, trim, order[1..]);
      OriginalsConcat(own, OwnIds(nodes, trim, order[1..]));
    }
  }

  lemma {:induction false} RecalledIsBehind(t: Tables, trim: map<SummaryId, nat>, id: SummaryId)
    requires Valid(t)
    ensures Recalled(t, trim, id) == Originals(Behind(t.nodes, trim, id))
  {
    ExpansionRestoresOriginals(t, id);
    StripLeavesOwn(t.nodes, trim, PostWalk(t.nodes, [id], {}).order);
  }

  lemma {:induction false} RecalledAllIsBehind(t: Tables, trim: map<SummaryId, nat>, ids: seq<SummaryId>)
    requires Valid(t)
    ensures RecalledAll(t, trim, ids) == Originals(JoinBehind(t.nodes, trim, ids))
    decreases |ids|
  {
    if ids != [] {
      RecalledIsBehind(t, trim, ids[0]);
      RecalledAllIsBehind(t, trim, ids[1..]);
      OriginalsConcat(Behind(t.nodes, trim, ids[0]), JoinBehind(t.nodes, trim, ids[1..]));
    }
  }

  /** What is stripped of a row: nothing, or the exchange at the end of its sources. */
  lemma {:induction false} StrippedIsExchange(prompt: string, nodes: seq<Node>, trim: map<SummaryId, nat>, x: SummaryId)
    requires Honest(prompt, nodes, trim)
    ensures IsExchange(prompt, Originals(Sources(nodes, x)[|Own(nodes, trim, x)|..]))
  {
    var sources, own := Sources(nodes, x), Own(nodes, trim, x);
    OwnIsPrefix(nodes, trim, x);
    if x in trim {
      assert EndsInExchange(prompt, nodes, x, trim[x]);
    } else {
      assert sources[|own|..] == [];
    }
  }

  /** In a remembered session, the system head, what the archive's expansions of the active segments show, and the raw
      tail are everything ever appended, in order, verbatim or as excerpts whose originals are archived; each stretch
      left out of an expansion is a recollection exchange. */
  lemma {:induction false} ExpansionsRecallHistory(c: Config, s: State)
    requires Remembers(c, s)
    ensures var shown := Head(s.messages) + RecalledAll(s.tables, s.trim, IdsOf(Segments(s.messages)))
         + Tail(s.messages);
      KeptOrPruned(c.prune, s.tables.messages, s.history, shown)
    ensures forall x: SummaryId ::
      IsExchange(c.recollectionPrompt, Originals(Sources(s.tables.nodes, x)[|Own(s.tables.nodes, s.trim, x)|..]))
  {
    RecalledAllIsBehind(s.tables, s.trim, IdsOf(Segments(s.messages)));
    RecoveredTidy(s.tables.nodes, s.trim, Head(s.messages), Segments(s.messages), Tail(s.messages));
    forall x: SummaryId
      ensures IsExchange(c.recollectionPrompt,
           Originals(Sources(s.tables.nodes, x)[|Own(s.tables.nodes, s.trim, x)|..]))
    {
      StrippedIsExchange(c.recollectionPrompt, s.tables.nodes, s.trim, x);
    }
  }

  /** So at every point of every run, for everything its events appended. */
  lemma {:induction false} EveryRunIsRecalled(c: Config, events: seq<Event>)
    requires c.batch >= 2
    ensures var s := Run(c, FRESH, events);
      KeptOrPruned(c.prune, s.tables.messages, Appended(events),
                   Head(s.messages) + RecalledAll(s.tables, s.trim, IdsOf(Segments(s.messages))) + Tail(s.messages))
  {
    FreshRemembers(c);
    HistoryIsNeverLost(c, FRESH, events);
    HistoryIsAppended(c, FRESH, events);
    assert FRESH.history + Appended(events) == Appended(events);
    ExpansionsRecallHistory(c, Run(c, FRESH, events));
  }
}
