/**
 * The message handler `handle_message` (app.py:69-128) with the state it
 * mutates: the `user_joined` dictionary (app.py:46) and the jobs handed to the
 * shared scheduler (app.py:47, 137-175). `Handle` is the handler as a step on
 * a state value; the class `ChatBot` holds the same state in fields and its
 * methods are proved to take exactly that step.
 */
module Bot {
  import opened Wrappers
  import opened Text
  import opened Router
  import opened Drip

  /** One inbound text message: its sender, its raw text, and the clock reading when it is handled. */
  datatype Event = Event(userId: UserId, text: string, now: int)

  /** A quick-reply button that sends `text` on the user's behalf (app.py:77-79). */
  datatype QuickReplyItem = MessageAction(caption: string, text: string)

  /** The single text message of a reply, with its quick-reply buttons. */
  datatype Message = Message(text: string, quickReply: seq<QuickReplyItem>)

  /** The `KeyError` a `MESSAGES[key]` lookup raises when `key` is absent. */
  datatype KeyError = KeyError(key: string)

  /** The button offered with the greeting: it sends "receive gift" (app.py:78). */
  const GiftButton: QuickReplyItem := MessageAction("\U{1F381} Gift", "receive gift")

  /** The hard-coded reply to a text no rule recognises (app.py:126). */
  const FallbackText: string := "\U{1F64F} โปรดทำตามคำแนะนำ / Please follow the instructions."

  /** Everything the handler mutates: join times by user, and the jobs handed to the scheduler, oldest first. */
  datatype State = State(joined: map<UserId, int>, jobs: seq<Job>)

  /** What handling one event produces: the new state, the branch taken, and the reply or the `KeyError`. */
  datatype Handled = Handled(state: State, rule: Rule, reply: Result<Message, KeyError>)

  /** The catalogue key whose text answers a rule; the fallback text is not in the catalogue. */
  function ReplyKey(rule: Rule): Option<string>
  {
    match rule
    case Greet => Some("greeting")
    case Gift => Some("gift")
    case Activated => Some("activated")
    case RosePath => Some("rose_path")
    case Fallback => None
  }

  /** A reply built from `MESSAGES[key]`, or the `KeyError` that lookup raises. */
  function CatalogReply(catalog: map<string, string>, key: string, quickReply: seq<QuickReplyItem>): Result<Message, KeyError>
  {
    if key in catalog then Success(Message(catalog[key], quickReply)) else Failure(KeyError(key))
  }

  /** Every key the gift branch looks up is in the catalogue: the gift text and the five drip messages. */
  predicate HasGiftMessages(catalog: map<string, string>)
  {
    "gift" in catalog && HasDripMessages(catalog)
  }

  /** Every key the handler and the campaign look up is in the catalogue. */
  predicate CatalogComplete(catalog: map<string, string>)
  {
    "greeting" in catalog && "activated" in catalog && HasGiftMessages(catalog)
  }

  /**
   * `handle_message` on event `e` in state `s`, with the message catalogue
   * `catalog` and the campaign offsets `o` (app.py:69-128, 133-176).
   */
  function Handle(catalog: map<string, string>, o: DripOffsets, s: State, e: Event): (r: Handled)
    ensures r.rule == Route(e.userId !in s.joined, Strip(e.text))
    ensures e.userId in r.state.joined
    ensures forall u :: u in s.joined ==> u in r.state.joined && r.state.joined[u] == s.joined[u]
    ensures forall u :: u in r.state.joined ==> u in s.joined || u == e.userId
    ensures r.rule != Greet ==> r.state.joined == s.joined
    ensures r.rule != Gift ==> r.state.jobs == s.jobs
    ensures s.jobs <= r.state.jobs
    ensures |r.state.jobs| <= |s.jobs| + 5
    ensures forall i :: |s.jobs| <= i < |r.state.jobs| ==> r.state.jobs[i].userId == e.userId
  {
    match Route(e.userId !in s.joined, Strip(e.text))
    case Greet =>
      Handled(State(s.joined[e.userId := e.now], s.jobs), Greet, CatalogReply(catalog, "greeting", [GiftButton]))
    case Gift =>
      if "gift" !in catalog then Handled(s, Gift, Failure(KeyError("gift")))
      else
        var enrolment := Enrol(catalog, e.userId, e.now, Campaign(o));
        var reply := if enrolment.missing.Some? then Failure(KeyError(enrolment.missing.value))
                     else Success(Message(catalog["gift"], []));
        Handled(State(s.joined, s.jobs + enrolment.added), Gift, reply)
    case Activated => Handled(s, Activated, CatalogReply(catalog, "activated", []))
    case RosePath => Handled(s, RosePath, CatalogReply(catalog, "rose_path", []))
    case Fallback => Handled(s, Fallback, Success(Message(FallbackText, [])))
  }

  /**
   * A sender not yet in `user_joined` is recorded with the current time and
   * gets the greeting with the gift button, whatever the text, and no job is
   * scheduled, not even for "gift" (app.py:74-86). The sender is recorded
   * before the greeting is looked up, so a missing greeting still records them.
   */
  lemma FirstMessageGreets(catalog: map<string, string>, o: DripOffsets, s: State, e: Event)
    requires e.userId !in s.joined
    ensures var r := Handle(catalog, o, s, e);
      && r.rule == Greet
      && r.state == State(s.joined[e.userId := e.now], s.jobs)
      && r.reply == if "greeting" in catalog then Success(Message(catalog["greeting"], [GiftButton]))
                    else Failure(KeyError("greeting"))
  {
  }

  /**
   * For a known sender the gift branch fires exactly when the stripped,
   * lower-cased text is one of the three gift words (app.py:71, 89), and only
   * that branch changes the jobs.
   */
  lemma KnownSenderGiftIff(catalog: map<string, string>, o: DripOffsets, s: State, e: Event)
    requires e.userId in s.joined
    ensures var r := Handle(catalog, o, s, e);
      && (r.rule == Gift <==> Lower(Strip(e.text)) in GiftWords)
      && (r.state.jobs != s.jobs ==> Lower(Strip(e.text)) in GiftWords)
      && r.state.joined == s.joined
  {
  }

  /**
   * A gift request from a known sender, with a complete catalogue, replies
   * with the gift text and appends the five campaign jobs for that sender at
   * the five offsets, in order; with ascending offsets they fire strictly one
   * after the other, all after `now` (app.py:89-98, 133-176).
   */
  lemma GiftRequestEnrols(catalog: map<string, string>, o: DripOffsets, s: State, e: Event)
    requires HasGiftMessages(catalog)
    requires e.userId in s.joined && IsGiftText(Strip(e.text))
    ensures var r := Handle(catalog, o, s, e);
      && r.rule == Gift
      && r.reply == Success(Message(catalog["gift"], []))
      && r.state.joined == s.joined
      && r.state.jobs == s.jobs + [ Job(e.userId, "day1_reminder", catalog["day1_reminder"], e.now + o.day1),
                                    Job(e.userId, "day2_invite", catalog["day2_invite"], e.now + o.day2),
                                    Job(e.userId, "day2_blessing", catalog["day2_blessing"], e.now + o.blessing),
                                    Job(e.userId, "day3_teaser", catalog["day3_teaser"], e.now + o.day3),
                                    Job(e.userId, "rose_path", catalog["rose_path"], e.now + o.rosePath) ]
      && (Ascending(o) ==>
            && (forall i :: |s.jobs| <= i < |r.state.jobs| ==> e.now < r.state.jobs[i].runDate)
            && (forall i, j :: |s.jobs| <= i < j < |r.state.jobs| ==> r.state.jobs[i].runDate < r.state.jobs[j].runDate))
  {
    FullBatch(catalog, e.userId, e.now, o);
    if Ascending(o) {
      BatchFiresInOrder(catalog, e.userId, e.now, o);
    }
  }

  /**
   * With a complete catalogue every message gets a reply: the catalogue text
   * of its branch, or the fallback text (app.py:80-128).
   */
  lemma EveryMessageAnswered(catalog: map<string, string>, o: DripOffsets, s: State, e: Event)
    requires CatalogComplete(catalog)
    ensures var r := Handle(catalog, o, s, e);
      && r.reply.Success?
      && r.reply.value.text == (if ReplyKey(r.rule).Some? then catalog[ReplyKey(r.rule).value] else FallbackText)
      && (r.reply.value.quickReply == [GiftButton] <==> r.rule == Greet)
  {
    if e.userId in s.joined && IsGiftText(Strip(e.text)) {
      FullBatch(catalog, e.userId, e.now, o);
    }
  }

  /**
   * The text the greeting's gift button sends is a gift request, so a user
   * who taps it after being greeted is enrolled (see `GiftRequestEnrols`).
   */
  lemma GiftButtonRequestsGift(t: string)
    requires t == GiftButton.text
    ensures Strip(t) == t && IsGiftText(Strip(t))
  {
    assert t == GiftWords[0];
    assert Strip(t) == t by {
      assert t[0] == 'r' && t[|t| - 1] == 't';
      StripKeepsTrimmed(t);
    }
    assert Lower(t) == t by {
      LowerKeepsLowercase(t);
    }
  }

  /** The state after handling `events` in order, starting from `s`. */
  function Run(catalog: map<string, string>, o: DripOffsets, s: State, events: seq<Event>): State
  {
    if events == [] then s
    else Handle(catalog, o, Run(catalog, o, s, events[..|events| - 1]), events[|events| - 1]).state
  }

  /**
   * `user_joined` only grows and a join time is never overwritten; every
   * sender of `events` ends up in it (app.py:74-75).
   */
  lemma {:induction false} JoinedOnlyGrows(catalog: map<string, string>, o: DripOffsets, s: State, events: seq<Event>)
    ensures var t := Run(catalog, o, s, events);
      && (forall u :: u in s.joined ==> u in t.joined && t.joined[u] == s.joined[u])
      && (forall i :: 0 <= i < |events| ==> events[i].userId in t.joined)
  {
    if events != [] {
      var prefix := events[..|events| - 1];
      var e := events[|events| - 1];
      JoinedOnlyGrows(catalog, o, s, prefix);
      var mid := Run(catalog, o, s, prefix);
      var r := Handle(catalog, o, mid, e);
      assert Run(catalog, o, s, events) == r.state;
      forall i | 0 <= i < |events|
        ensures events[i].userId in r.state.joined
      {
        if i < |prefix| {
          assert prefix[i] == events[i];
          assert events[i].userId in mid.joined;
        } else {
          assert i == |events| - 1;
          assert e.userId in r.state.joined;
        }
      }
    }
  }

  /** Once a sender has sent one message they are never greeted again (app.py:74). */
  lemma NeverGreetedTwice(catalog: map<string, string>, o: DripOffsets, s: State, events: seq<Event>, i: nat, e: Event)
    requires i < |events| && events[i].userId == e.userId
    ensures Handle(catalog, o, Run(catalog, o, s, events), e).rule != Greet
  {
    JoinedOnlyGrows(catalog, o, s, events);
  }

  /** The jobs addressed to `u`, in order. */
  function JobsFor(jobs: seq<Job>, u: UserId): seq<Job>
  {
    if jobs == [] then []
    else JobsFor(jobs[..|jobs| - 1], u) + (if jobs[|jobs| - 1].userId == u then [jobs[|jobs| - 1]] else [])
  }

  /** Selecting one user's jobs distributes over concatenation (a step of `RepeatedGiftRequests`). */
  lemma {:induction false} JobsForAppend(a: seq<Job>, b: seq<Job>, u: UserId)
    ensures JobsFor(a + b, u) == JobsFor(a, u) + JobsFor(b, u)
    decreases |b|
  {
    if b == [] {
      assert a + b == a;
    } else {
      var b' := b[..|b| - 1];
      assert (a + b)[..|a + b| - 1] == a + b';
      assert (a + b)[|a + b| - 1] == b[|b| - 1];
      JobsForAppend(a, b', u);
    }
  }

  /** A job list addressed entirely to `u` is its own selection for `u` (a step of `RepeatedGiftRequests`). */
  lemma {:induction false} JobsForOwnJobs(jobs: seq<Job>, u: UserId)
    requires forall i :: 0 <= i < |jobs| ==> jobs[i].userId == u
    ensures JobsFor(jobs, u) == jobs
  {
    if jobs != [] {
      JobsForOwnJobs(jobs[..|jobs| - 1], u);
    }
  }

  /**
   * Enrolment is not idempotent: `k` gift requests from a known sender add
   * `5 * k` jobs for that sender, leave the earlier jobs as a prefix, and
   * leave `user_joined` alone (app.py:89-91, 137-175).
   */
  lemma {:induction false} RepeatedGiftRequests(catalog: map<string, string>, o: DripOffsets, s: State, u: UserId, events: seq<Event>)
    requires HasGiftMessages(catalog)
    requires u in s.joined
    requires forall i :: 0 <= i < |events| ==> events[i].userId == u && IsGiftText(Strip(events[i].text))
    ensures var t := Run(catalog, o, s, events);
      && t.joined == s.joined
      && s.jobs <= t.jobs
      && |t.jobs| == |s.jobs| + 5 * |events|
      && |JobsFor(t.jobs, u)| == |JobsFor(s.jobs, u)| + 5 * |events|
  {
    if events != [] {
      var prefix := events[..|events| - 1];
      var e := events[|events| - 1];
      RepeatedGiftRequests(catalog, o, s, u, prefix);
      var mid := Run(catalog, o, s, prefix);
      assert prefix[..] == prefix;
      assert forall i :: 0 <= i < |prefix| ==> prefix[i] == events[i];
      GiftRequestEnrols(catalog, o, mid, e);
      var t := Handle(catalog, o, mid, e).state;
      assert Run(catalog, o, s, events) == t;
      var batch := t.jobs[|mid.jobs|..];
      assert t.jobs == mid.jobs + batch;
      JobsForAppend(mid.jobs, batch, u);
      JobsForOwnJobs(batch, u);
    }
  }

  /**
   * A known sender who sends the rose emoji on its own gets the rose-path
   * reply, and nothing is recorded or scheduled (app.py:112-120).
   */
  lemma RoseEmojiAnswered(catalog: map<string, string>, o: DripOffsets, s: State, e: Event)
    requires e.userId in s.joined && e.text == Rose
    ensures Handle(catalog, o, s, e)
      == Handled(s, RosePath, if "rose_path" in catalog then Success(Message(catalog["rose_path"], []))
                              else Failure(KeyError("rose_path")))
  {
    RoseEmojiIsRose(e.text);
  }

  /**
   * A new user sends a first message (any text, "hello" say), asks for the
   * gift, then sends a rose: greeting, then the gift reply with five jobs,
   * then the rose path with no new job and no change to `user_joined`.
   */
  lemma WelcomeGiftRoseScenario(catalog: map<string, string>, hello: Event, gift: Event, rose: Event)
    requires CatalogComplete(catalog)
    requires hello.userId == gift.userId == rose.userId
    requires gift.text == "gift" && rose.text == "\U{1F339}"
    ensures var s0 := State(map[], []);
      var h1 := Handle(catalog, DemoOffsets, s0, hello);
      var h2 := Handle(catalog, DemoOffsets, h1.state, gift);
      var h3 := Handle(catalog, DemoOffsets, h2.state, rose);
      && h1.rule == Greet && h1.reply == Success(Message(catalog["greeting"], [GiftButton]))
      && h2.rule == Gift && h2.reply == Success(Message(catalog["gift"], []))
      && |h2.state.jobs| == 5 && h2.state.jobs[0].runDate == gift.now + 30
      && h3.rule == RosePath && h3.reply == Success(Message(catalog["rose_path"], []))
      && h3.state == h2.state
  {
    var s0 := State(map[], []);
    var h1 := Handle(catalog, DemoOffsets, s0, hello);
    assert h1.rule == Greet && h1.reply == Success(Message(catalog["greeting"], [GiftButton]))
        && gift.userId in h1.state.joined && h1.state.jobs == [] by {
      FirstMessageGreets(catalog, DemoOffsets, s0, hello);
    }
    var h2 := Handle(catalog, DemoOffsets, h1.state, gift);
    assert h2.rule == Gift && h2.reply == Success(Message(catalog["gift"], []))
        && |h2.state.jobs| == 5 && h2.state.jobs[0].runDate == gift.now + 30 && rose.userId in h2.state.joined by {
      assert IsGiftText(Strip(gift.text)) by {
        StripKeepsTrimmed(gift.text);
        LowerKeepsLowercase(gift.text);
      }
      GiftRequestEnrols(catalog, DemoOffsets, h1.state, gift);
    }
    RoseEmojiAnswered(catalog, DemoOffsets, h2.state, rose);
  }

  /**
   * The running handler: the global `user_joined` dictionary (app.py:46) and
   * the jobs added to the shared scheduler (app.py:47) as fields, with the
   * `MESSAGES` catalogue (app.py:40-41) and the campaign offsets fixed at
   * start-up.
   */
  class ChatBot {
    const catalog: map<string, string>
    const offsets: DripOffsets
    var joined: map<UserId, int>
    var jobs: seq<Job>

    /** A freshly started process: nobody has joined and nothing is scheduled. */
    constructor (catalog: map<string, string>, offsets: DripOffsets)
      ensures this.catalog == catalog && this.offsets == offsets
      ensures joined == map[] && jobs == []
    {
      this.catalog := catalog;
      this.offsets := offsets;
      joined := map[];
      jobs := [];
    }

    /** The mutable state as a value. */
    function Snapshot(): State
      reads this
    {
      State(joined, jobs)
    }

    /**
     * `handle_message` (app.py:69-128): returns the branch taken and the reply
     * sent, or the `KeyError` raised; the fields change exactly as `Handle`
     * says.
     */
    method HandleMessage(userId: UserId, text: string, now: int) returns (rule: Rule, reply: Result<Message, KeyError>)
      modifies this
      ensures Handle(catalog, offsets, old(Snapshot()), Event(userId, text, now)) == Handled(Snapshot(), rule, reply)
    {
      var t := Strip(text);

      if userId !in joined {
        joined := joined[userId := now];
        rule := Greet;
        if "greeting" !in catalog {
          reply := Failure(KeyError("greeting"));
          return;
        }
        reply := Success(Message(catalog["greeting"], [GiftButton]));
        return;
      }

      if IsGiftText(t) {
        rule := Gift;
        if "gift" !in catalog {
          reply := Failure(KeyError("gift"));
          return;
        }
        var giftText := catalog["gift"];
        var missing := ScheduleMessages(userId, now);
        if missing.Some? {
          reply := Failure(KeyError(missing.value));
          return;
        }
        reply := Success(Message(giftText, []));
        return;
      }

      if IsActivatedText(t) {
        rule := Activated;
        reply := CatalogReply(catalog, "activated", []);
        return;
      }

      if IsRoseText(t) {
        rule := RosePath;
        reply := CatalogReply(catalog, "rose_path", []);
        return;
      }

      rule := Fallback;
      reply := Success(Message(FallbackText, []));
    }

    /**
     * `schedule_messages` (app.py:133-176): five `add_job` calls in campaign
     * order; a missing message raises before its job is added and stops the
     * rest.
     */
    method ScheduleMessages(userId: UserId, now: int) returns (missing: Option<string>)
      modifies this`jobs
      ensures jobs == old(jobs) + Enrol(catalog, userId, now, Campaign(offsets)).added
      ensures missing == Enrol(catalog, userId, now, Campaign(offsets)).missing
    {
      // `rest` is the part of the campaign not yet added; the jobs added so far
      // followed by what `rest` adds make up the whole batch.
      ghost var rest := Campaign(offsets);
      ghost var before;
      before := jobs;
      missing := AddJob(userId, "day1_reminder", now + offsets.day1);
      EnrolStep(catalog, userId, now, rest, before, jobs, missing);
      if missing.Some? { return; }
      rest := rest[1..];
      before := jobs;
      missing := AddJob(userId, "day2_invite", now + offsets.day2);
      EnrolStep(catalog, userId, now, rest, before, jobs, missing);
      if missing.Some? { return; }
      rest := rest[1..];
      before := jobs;
      missing := AddJob(userId, "day2_blessing", now + offsets.blessing);
      EnrolStep(catalog, userId, now, rest, before, jobs, missing);
      if missing.Some? { return; }
      rest := rest[1..];
      before := jobs;
      missing := AddJob(userId, "day3_teaser", now + offsets.day3);
      EnrolStep(catalog, userId, now, rest, before, jobs, missing);
      if missing.Some? { return; }
      rest := rest[1..];
      before := jobs;
      missing := AddJob(userId, "rose_path", now + offsets.rosePath);
      EnrolStep(catalog, userId, now, rest, before, jobs, missing);
    }

    /**
     * One `scheduler.add_job(send_message, "date", run_date=..., args=[user_id,
     * MESSAGES[key]])` call: the lookup happens first, so a missing key adds nothing.
     */
    method AddJob(userId: UserId, key: string, runDate: int) returns (missing: Option<string>)
      modifies this`jobs
      ensures key in catalog ==> missing == None && jobs == old(jobs) + [Job(userId, key, catalog[key], runDate)]
      ensures key !in catalog ==> missing == Some(key) && jobs == old(jobs)
    {
      if key !in catalog {
        return Some(key);
      }
      jobs := jobs + [Job(userId, key, catalog[key], runDate)];
      missing := None;
    }
  }
}
