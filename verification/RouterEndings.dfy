/** How one call of the router ends, and what the router has learned when it is over. */
module RouterEndings {
  import opened Text
  import opened Router

  // ---------------------------------------------------------------- what is learned

  /** What a call leaves in memory: the models in `refused` had no quota, `kept` is the one that answered. */
  ghost predicate Learned(mem: Memory, after: Memory, refused: set<string>, kept: Option<string>,
                          waitOf: string -> Option<int>)
  {
    && after.active == (if kept.Some? then kept
                        else if mem.active.Some? && mem.active.value in refused then None else mem.active)
    && after.exhausted == mem.exhausted + refused
    && (forall m :: m in after.waits <==> m in mem.waits || (m in refused && waitOf(m).Some?))
    && (forall m :: m in after.waits ==>
          after.waits[m] == if m in refused && waitOf(m).Some? then waitOf(m).value else mem.waits[m])
  }

  /** One refusal in front of a call that learns the rest. */
  lemma OneRefusalMore(mem: Memory, model: string, after: Memory, refused: set<string>, kept: Option<string>,
                       waitOf: string -> Option<int>)
    requires Learned(Refused(mem, model, waitOf(model)), after, refused, kept, waitOf)
    ensures Learned(mem, after, refused + {model}, kept, waitOf)
  {}

  /** Without a refusal nothing is learned but who answered. */
  lemma NoRefusal(mem: Memory, kept: Option<string>, waitOf: string -> Option<int>)
    ensures Learned(mem, if kept.Some? then mem.(active := kept) else mem, {}, kept, waitOf)
  {}

  // ---------------------------------------------------------------- one answer

  function AnswerWait(answers: string -> Answer): string -> Option<int> {
    m => if answers(m).Quota? then answers(m).wait else None
  }

  ghost predicate Last(tried: seq<string>, model: string) {
    tried != [] && tried[|tried| - 1] == model
  }

  /**
   * A call is answered if and only if the last model it tried replies, and with that reply; it fails if
   * and only if that model is broken, and every model is exhausted if and only if all of them refuse.
   */
  lemma {:induction false} AskEndsExactly(mem: Memory, order: seq<string>, answers: string -> Answer)
    ensures var c := Ask(mem, order, answers);
            && (c.outcome.AllExhausted? <==> forall m :: m in order ==> answers(m).Quota?)
            && (forall m, text :: c.outcome == Answered(m, text) <==> Last(c.tried, m) && answers(m) == Reply(text))
            && (forall m :: c.outcome == Failed(m) <==> Last(c.tried, m) && answers(m).Broken?)
  {
    AskExactly(mem, order, answers);
    hide Ask;
    var c := Ask(mem, order, answers);
    if c.outcome.AllExhausted? && c.tried != [] {
      assert c.tried[|c.tried| - 1] in order;
    }
  }

  /** The one that answered is remembered, and one that was remembered is forgotten only for refusing. */
  lemma {:induction false} AskLearnsExactly(mem: Memory, order: seq<string>, answers: string -> Answer)
    ensures var c := Ask(mem, order, answers);
            Learned(mem, c.mem, set m | m in c.tried && answers(m).Quota?,
                    if c.outcome.Answered? then Some(c.outcome.model) else None, AnswerWait(answers))
    decreases |order|
  {
    hide Learned;
    var c := Ask(mem, order, answers);
    var kept := if c.outcome.Answered? then Some(c.outcome.model) else None;
    if order != [] && answers(order[0]).Quota? {
      var d := Ask(Refused(mem, order[0], answers(order[0]).wait), order[1..], answers);
      assert c.tried == [order[0]] + d.tried && c.mem == d.mem && c.outcome == d.outcome;
      hide Ask, Refused;
      AskLearnsExactly(Refused(mem, order[0], answers(order[0]).wait), order[1..], answers);
      var later := set m | m in d.tried && answers(m).Quota?;
      OneRefusalMore(mem, order[0], d.mem, later, kept, AnswerWait(answers));
      assert (set m | m in c.tried && answers(m).Quota?) == later + {order[0]};
    } else {
      NoRefusal(mem, kept, AnswerWait(answers));
      assert (set m | m in c.tried && answers(m).Quota?) == {};
    }
  }

  // ---------------------------------------------------------------- one stream

  /** Out of quota before the first piece: the next model is asked. */
  predicate GivesNothing(f: Feed) {
    f.pieces == [] && f.end.OutOfQuota?
  }

  function FeedWait(feeds: string -> Feed): string -> Option<int> {
    m => if feeds(m).end.OutOfQuota? then feeds(m).end.wait else None
  }

  /** The ending of a stream that stopped at `m`, by what `m` gave. */
  ghost predicate StopsAt(ending: Ending, m: string, f: Feed) {
    && !GivesNothing(f)
    && (f.end.Complete? ==> ending == Finished)
    && (f.end.Interrupted? ==> ending == Raised(m))
    && (f.end.OutOfQuota? ==> ending == QuotaMidStream(m))
  }

  lemma {:induction false} StreamStops(mem: Memory, order: seq<string>, feeds: string -> Feed)
    ensures var r := AskStream(mem, order, feeds);
            r.ending.Exhausted? || (r.tried != []
                && StopsAt(r.ending, r.tried[|r.tried| - 1], feeds(r.tried[|r.tried| - 1])))
    decreases |order|
  {
    if order != [] && GivesNothing(feeds(order[0])) {
      hide StopsAt, Refused;
      StreamStops(Refused(mem, order[0], feeds(order[0]).end.wait), order[1..], feeds);
    }
  }

  lemma {:induction false} StreamRunsDry(mem: Memory, order: seq<string>, feeds: string -> Feed)
    ensures AskStream(mem, order, feeds).ending.Exhausted? <==> forall m :: m in order ==> GivesNothing(feeds(m))
    decreases |order|
  {
    hide Refused;
    if order != [] {
      assert order[0] in order && order == [order[0]] + order[1..];
      if GivesNothing(feeds(order[0])) {
        StreamRunsDry(Refused(mem, order[0], feeds(order[0]).end.wait), order[1..], feeds);
      }
    }
  }

  /**
   * A stream ends as the last model it tried ends: finished if and only if that feed is complete,
   * raised if and only if it is interrupted, out of quota in the middle if and only if it is so after
   * a piece, and exhausted if and only if every model of the order gives nothing.
   */
  lemma {:induction false} StreamEndsExactly(mem: Memory, order: seq<string>, feeds: string -> Feed)
    ensures var r := AskStream(mem, order, feeds);
            && (r.ending.Exhausted? <==> forall m :: m in order ==> GivesNothing(feeds(m)))
            && (r.ending.Finished? <==> exists m :: Last(r.tried, m) && feeds(m).end.Complete?)
            && (forall m :: r.ending == Raised(m) <==> Last(r.tried, m) && feeds(m).end.Interrupted?)
            && (forall m :: r.ending == QuotaMidStream(m) <==>
                  Last(r.tried, m) && feeds(m).end.OutOfQuota? && feeds(m).pieces != [])
  {
    hide AskStream;
    var r := AskStream(mem, order, feeds);
    NothingIsSpliced(mem, order, feeds);
    StreamStops(mem, order, feeds);
    StreamRunsDry(mem, order, feeds);
    if r.tried != [] {
      assert Last(r.tried, r.tried[|r.tried| - 1]) && r.tried[|r.tried| - 1] in order;
    }
  }

  /** A model that gave a piece is remembered; one that gave nothing for want of quota is not asked first again. */
  lemma {:induction false} StreamLearnsExactly(mem: Memory, order: seq<string>, feeds: string -> Feed)
    ensures var r := AskStream(mem, order, feeds);
            Learned(mem, r.mem, set m | m in r.tried && GivesNothing(feeds(m)),
                    if r.pieces != [] then Some(r.pieces[0].model) else None, FeedWait(feeds))
    decreases |order|
  {
    hide Learned;
    var r := AskStream(mem, order, feeds);
    var kept := if r.pieces != [] then Some(r.pieces[0].model) else None;
    if order != [] && GivesNothing(feeds(order[0])) {
      var d := AskStream(Refused(mem, order[0], feeds(order[0]).end.wait), order[1..], feeds);
      assert r.tried == [order[0]] + d.tried && r.mem == d.mem && r.pieces == d.pieces;
      hide AskStream, Refused;
      StreamLearnsExactly(Refused(mem, order[0], feeds(order[0]).end.wait), order[1..], feeds);
      var later := set m | m in d.tried && GivesNothing(feeds(m));
      OneRefusalMore(mem, order[0], d.mem, later, kept, FeedWait(feeds));
      assert (set m | m in r.tried && GivesNothing(feeds(m))) == later + {order[0]};
    } else {
      NoRefusal(mem, kept, FeedWait(feeds));
      assert (set m | m in r.tried && GivesNothing(feeds(m))) == {};
    }
  }
}
