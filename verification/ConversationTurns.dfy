/**
 The conversation view of harness-mem-ui/src/components/FeedPanel.tsx: `buildConversationTurns` walks the
 feed, newest first, keeping what it has seen of each session until that session's prompt comes up.
 */
module ConversationTurns {
  import opened JsText
  import opened FeedViews

  predicate IsVisibleUserPrompt(c: Card) {
    Includes(c.eventType, "user_prompt") && !c.envelope
  }

  predicate IsAssistantResponse(c: Card) {
    c.title == "assistant_response" || c.eventType == "assistant_response"
  }

  datatype Turn = Turn(id: string, prompt: Card, responses: seq<Card>, hidden: nat)

  datatype Pending = Pending(responses: seq<Card>, hidden: nat)

  const NOTHING := Pending([], 0)

  function Reverse(s: seq<Card>): (r: seq<Card>)
    ensures |r| == |s| && forall i | 0 <= i < |s| :: r[i] == s[|s| - 1 - i]
  {
    if s == [] then [] else Reverse(s[1..]) + [s[0]]
  }

  function See(p: Pending, c: Card): Pending {
    if IsVisibleUserPrompt(c) then NOTHING
    else if IsAssistantResponse(c) then p.(responses := p.responses + [c])
    else p.(hidden := p.hidden + 1)
  }

  /** What is pending for `session` after `items`. */
  function PendingOf(items: seq<Card>, session: string): Pending
    decreases |items|
  {
    if items == [] then NOTHING
    else
      var p, c := PendingOf(items[..|items| - 1], session), items[|items| - 1];
      if SessionKey(c) == session then See(p, c) else p
  }

  function TurnOf(p: Pending, prompt: Card): Turn {
    Turn("turn-" + prompt.id, prompt, Reverse(p.responses), p.hidden)
  }

  function Turns(items: seq<Card>): seq<Turn>
    decreases |items|
  {
    if items == [] then []
    else
      var init, c := items[..|items| - 1], items[|items| - 1];
      Turns(init) + (if IsVisibleUserPrompt(c) then [TurnOf(PendingOf(init, SessionKey(c)), c)] else [])
  }

  lemma PendingSnoc(items: seq<Card>, c: Card, session: string)
    ensures var p := PendingOf(items, session);
      PendingOf(items + [c], session) == if SessionKey(c) == session then See(p, c) else p
  {
    hide SessionKey, See;
    assert (items + [c])[..|items|] == items;
  }

  lemma NothingYet(session: string)
    ensures Turns([]) == [] && PendingOf([], session) == NOTHING
  {
  }

  lemma TurnsSnoc(items: seq<Card>, c: Card)
    ensures Turns(items + [c]) ==
      Turns(items) + if IsVisibleUserPrompt(c) then [TurnOf(PendingOf(items, SessionKey(c)), c)] else []
  {
    hide SessionKey, IsVisibleUserPrompt, PendingOf;
    assert (items + [c])[..|items|] == items;
  }

  method BuildConversationTurns(items: seq<Card>) returns (turns: seq<Turn>)
    ensures turns == Turns(items)
  {
    hide IsVisibleUserPrompt, IsAssistantResponse, SessionKey, PendingOf, Turns, Reverse;
    turns := [];
    var pendingBySession: map<string, Pending> := map[];
    forall s ensures PendingOf([], s) == NOTHING { NothingYet(s); }
    NothingYet("");
    for i := 0 to |items|
      invariant turns == Turns(items[..i])
      invariant forall s :: (if s in pendingBySession then pendingBySession[s] else NOTHING) == PendingOf(items[..i], s)
    {
      var item := items[i];
      assert items[..i + 1] == items[..i] + [item];
      TurnsSnoc(items[..i], item);
      forall s
        ensures PendingOf(items[..i + 1], s) ==
          if SessionKey(item) == s then See(PendingOf(items[..i], s), item) else PendingOf(items[..i], s)
      {
        PendingSnoc(items[..i], item, s);
      }
      var sessionKey := SessionKey(item);
      var pending := if sessionKey in pendingBySession then pendingBySession[sessionKey] else NOTHING;
      assert pending == PendingOf(items[..i], sessionKey);
      if IsVisibleUserPrompt(item) {
        turns := turns + [Turn("turn-" + item.id, item, Reverse(pending.responses), pending.hidden)];
        pendingBySession := pendingBySession[sessionKey := NOTHING];
        continue;
      }
      if IsAssistantResponse(item) {
        pendingBySession := pendingBySession[sessionKey := pending.(responses := pending.responses + [item])];
        continue;
      }
      pendingBySession := pendingBySession[sessionKey := pending.(hidden := pending.hidden + 1)];
    }
    assert items[..|items|] == items;
  }

  // ---------------------------------------------------------------- sessions do not interfere

  function Only(items: seq<Card>, session: string): seq<Card>
    decreases |items|
  {
    if items == [] then []
    else Only(items[..|items| - 1], session) +
         (if SessionKey(items[|items| - 1]) == session then [items[|items| - 1]] else [])
  }

  function TurnsOf(turns: seq<Turn>, session: string): seq<Turn>
    decreases |turns|
  {
    if turns == [] then []
    else TurnsOf(turns[..|turns| - 1], session) +
         (if SessionKey(turns[|turns| - 1].prompt) == session then [turns[|turns| - 1]] else [])
  }

  lemma {:induction false} PendingProjects(items: seq<Card>, session: string)
    ensures PendingOf(items, session) == PendingOf(Only(items, session), session)
    decreases |items|
  {
    hide SessionKey, See;
    if items == [] {
    } else {
      var init, c := items[..|items| - 1], items[|items| - 1];
      PendingProjects(init, session);
      var o := Only(init, session);
      if SessionKey(c) == session {
        assert (o + [c])[..|o|] == o;
      } else {
        assert o + [] == o;
      }
    }
  }

  lemma PromptOfTurn(p: Pending, c: Card)
    ensures TurnOf(p, c).prompt == c
  {
  }

  /** The turns of one session, taken from an interleaved feed, are those built from its items alone. */
  lemma {:induction false} TurnsProject(items: seq<Card>, session: string)
    ensures TurnsOf(Turns(items), session) == Turns(Only(items, session))
    decreases |items|
  {
    hide SessionKey, IsVisibleUserPrompt, PendingOf, TurnOf;
    if items == [] {
    } else {
      var init, c := items[..|items| - 1], items[|items| - 1];
      var o, ts := Only(init, session), Turns(init);
      TurnsProject(init, session);
      PendingProjects(init, session);
      PromptOfTurn(PendingOf(init, SessionKey(c)), c);
      if IsVisibleUserPrompt(c) {
        var t := TurnOf(PendingOf(init, SessionKey(c)), c);
        assert (ts + [t])[..|ts|] == ts;
      } else {
        assert ts + [] == ts;
      }
      if SessionKey(c) == session {
        assert (o + [c])[..|o|] == o;
      } else {
        assert o + [] == o;
      }
    }
  }

  // ---------------------------------------------------------------- what one turn holds

  function Responses(items: seq<Card>): seq<Card>
    decreases |items|
  {
    if items == [] then []
    else Responses(items[..|items| - 1]) + (if IsAssistantResponse(items[|items| - 1]) then [items[|items| - 1]] else [])
  }

  ghost predicate NoPrompt(items: seq<Card>, session: string) {
    forall c | c in items && SessionKey(c) == session :: !IsVisibleUserPrompt(c)
  }

  lemma {:induction false} PendingWindow(items: seq<Card>, from: nat, session: string)
    requires from <= |items| && NoPrompt(items[from..], session)
    requires from == 0 || (SessionKey(items[from - 1]) == session && IsVisibleUserPrompt(items[from - 1]))
    ensures var w := Only(items[from..], session);
            |Responses(w)| <= |w| && PendingOf(items, session) == Pending(Responses(w), |w| - |Responses(w)|)
    decreases |items|
  {
    hide SessionKey, IsVisibleUserPrompt, IsAssistantResponse;
    if from == |items| {
      assert items[from..] == [] && Only([], session) == [] && Responses([]) == [];
    } else {
      var init, c := items[..|items| - 1], items[|items| - 1];
      assert items[from..] == init[from..] + [c];
      assert c in items[from..];
      PendingWindow(init, from, session);
      var w := Only(init[from..], session);
      assert items[from..][..|items[from..]| - 1] == init[from..];
      if SessionKey(c) == session {
        assert (w + [c])[..|w|] == w;
      } else {
        assert w + [] == w;
      }
    }
  }

  /** The index just after the last prompt of `session`, or 0. */
  function AfterLastPrompt(items: seq<Card>, session: string): (n: nat)
    ensures n <= |items|
    decreases |items|
  {
    if items == [] then 0
    else
      var c := items[|items| - 1];
      if SessionKey(c) == session && IsVisibleUserPrompt(c) then |items| else AfterLastPrompt(items[..|items| - 1], session)
  }

  lemma {:induction false} AfterLastPromptMeaning(items: seq<Card>, session: string)
    ensures var n := AfterLastPrompt(items, session);
            && NoPrompt(items[n..], session)
            && (n > 0 ==> SessionKey(items[n - 1]) == session && IsVisibleUserPrompt(items[n - 1]))
    decreases |items|
  {
    hide SessionKey, IsVisibleUserPrompt;
    if items == [] {
    } else {
      var init, c := items[..|items| - 1], items[|items| - 1];
      AfterLastPromptMeaning(init, session);
      var n := AfterLastPrompt(items, session);
      if n < |items| {
        assert items[n..] == init[n..] + [c];
      }
    }
  }

  lemma {:induction false} TurnsPrefix(items: seq<Card>, n: nat)
    requires n <= |items|
    ensures Turns(items[..n]) <= Turns(items)
    decreases |items|
  {
    hide SessionKey, IsVisibleUserPrompt, PendingOf;
    if n < |items| {
      TurnsPrefix(items[..|items| - 1], n);
      assert items[..|items| - 1][..n] == items[..n];
    } else {
      assert items[..n] == items;
    }
  }

  /** What a session has pending at item `k`: the window since its last prompt. */
  lemma PendingAt(items: seq<Card>, k: nat, session: string)
    requires k < |items|
    ensures var w := Only(items[AfterLastPrompt(items[..k], session)..k], session);
            |Responses(w)| <= |w| && PendingOf(items[..k], session) == Pending(Responses(w), |w| - |Responses(w)|)
  {
    hide SessionKey, IsVisibleUserPrompt, IsAssistantResponse, Only, Responses, AfterLastPrompt, PendingOf, NoPrompt;
    var from := AfterLastPrompt(items[..k], session);
    AfterLastPromptMeaning(items[..k], session);
    assert items[..k][from..] == items[from..k];
    PendingWindow(items[..k], from, session);
  }

  /**
   The turn of the prompt at `k` holds, oldest first, exactly the responses of its own session since that
   session's previous prompt (newest first in the feed, so the walk meets them just before the prompt),
   and counts the session's other items of the same stretch.
   */
  lemma TurnWindow(items: seq<Card>, k: nat)
    requires k < |items| && IsVisibleUserPrompt(items[k])
    ensures var session := SessionKey(items[k]);
            var w := Only(items[AfterLastPrompt(items[..k], session)..k], session);
            && |Responses(w)| <= |w|
            && Turns(items[..k + 1]) == Turns(items[..k]) +
                 [Turn("turn-" + items[k].id, items[k], Reverse(Responses(w)), |w| - |Responses(w)|)]
            && Turns(items[..k + 1]) <= Turns(items)
  {
    hide SessionKey, IsVisibleUserPrompt, IsAssistantResponse, Only, Responses, Turns, AfterLastPrompt, PendingOf, Reverse;
    PendingAt(items, k, SessionKey(items[k]));
    TurnsSnoc(items[..k], items[k]);
    assert items[..k] + [items[k]] == items[..k + 1];
    TurnsPrefix(items, k + 1);
  }

  // ---------------------------------------------------------------- prompts and responses, field by field

  lemma {:induction false} PendingAreResponses(items: seq<Card>, session: string)
    ensures forall c | c in PendingOf(items, session).responses ::
      && c in items && SessionKey(c) == session
      && (c.title == "assistant_response" || c.eventType == "assistant_response")
    decreases |items|
  {
    hide SessionKey, IsVisibleUserPrompt;
    if items == [] {
    } else {
      var init, c := items[..|items| - 1], items[|items| - 1];
      PendingAreResponses(init, session);
      assert items == init + [c];
    }
  }

  /** A response is whatever has one of the two assistant markers. */
  lemma {:induction false} ResponsesMeaning(items: seq<Card>)
    ensures forall c ::
      (c in Responses(items) <==> c in items && (c.title == "assistant_response" || c.eventType == "assistant_response"))
    decreases |items|
  {
    if items == [] {
    } else {
      ResponsesMeaning(items[..|items| - 1]);
      assert items == items[..|items| - 1] + [items[|items| - 1]];
    }
  }

  lemma {:induction false} ReverseKeeps(s: seq<Card>)
    ensures multiset(Reverse(s)) == multiset(s)
  {
    if s == [] {
    } else {
      ReverseKeeps(s[1..]);
      assert s == [s[0]] + s[1..];
    }
  }

  lemma ReverseMembers(s: seq<Card>)
    ensures forall c :: c in Reverse(s) <==> c in s
  {
    ReverseKeeps(s);
    forall c ensures c in Reverse(s) <==> c in s {
      assert c in multiset(Reverse(s)) <==> c in multiset(s);
    }
  }

  /** A turn is named after a prompt of a user, and holds assistant responses of its session. */
  ghost predicate TurnInFields(items: seq<Card>, t: Turn) {
    && t.prompt in items && Includes(t.prompt.eventType, "user_prompt") && !t.prompt.envelope
    && t.id == "turn-" + t.prompt.id
    && forall c | c in t.responses ::
         && c in items && SessionKey(c) == SessionKey(t.prompt)
         && (c.title == "assistant_response" || c.eventType == "assistant_response")
  }

  lemma {:induction false} TurnsInFields(items: seq<Card>)
    ensures forall t | t in Turns(items) :: TurnInFields(items, t)
    decreases |items|
  {
    hide SessionKey, PendingOf, Reverse, Includes;
    if items == [] {
    } else {
      var init, c := items[..|items| - 1], items[|items| - 1];
      TurnsInFields(init);
      assert items == init + [c];
      var p := PendingOf(init, SessionKey(c));
      PendingAreResponses(init, SessionKey(c));
      ReverseMembers(p.responses);
    }
  }

  /** Every prompt of a user that is no system envelope has its turn. */
  lemma {:induction false} PromptHasTurn(items: seq<Card>, c: Card)
    requires c in items && Includes(c.eventType, "user_prompt") && !c.envelope
    ensures exists t :: t in Turns(items) && t.prompt == c
    decreases |items|
  {
    hide SessionKey, PendingOf, Reverse, Includes;
    var init, last := items[..|items| - 1], items[|items| - 1];
    assert items == init + [last];
    if c == last {
      var t := TurnOf(PendingOf(init, SessionKey(c)), c);
      assert t in Turns(items) && t.prompt == c;
    } else {
      PromptHasTurn(init, c);
    }
  }

  /** Cards share a session if their ids agree; a missing and an empty id both stand for no session. */
  lemma SessionKeyMeaning(a: Card, b: Card)
    requires a.sessionId != Some("__no_session__") && b.sessionId != Some("__no_session__")
    ensures SessionKey(a) == SessionKey(b)
       <==> a.sessionId == b.sessionId || (a.sessionId in {None, Some("")} && b.sessionId in {None, Some("")})
  {
  }

  // ---------------------------------------------------------------- conservation

  function Size(turns: seq<Turn>): nat
    decreases |turns|
  {
    if turns == [] then 0
    else Size(turns[..|turns| - 1]) + 1 + |turns[|turns| - 1].responses| + turns[|turns| - 1].hidden
  }

  function Leftover(sessions: seq<string>, items: seq<Card>): nat {
    if sessions == [] then 0
    else |PendingOf(items, sessions[0]).responses| + PendingOf(items, sessions[0]).hidden + Leftover(sessions[1..], items)
  }

  lemma {:induction false} LeftoverElsewhere(sessions: seq<string>, items: seq<Card>, c: Card)
    requires SessionKey(c) !in sessions
    ensures Leftover(sessions, items + [c]) == Leftover(sessions, items)
  {
    hide SessionKey, See;
    if sessions == [] {
    } else {
      assert (items + [c])[..|items|] == items;
      assert sessions[0] in sessions;
      LeftoverElsewhere(sessions[1..], items, c);
    }
  }

  lemma {:induction false} LeftoverStep(sessions: seq<string>, items: seq<Card>, c: Card)
    requires Distinct(sessions) && SessionKey(c) in sessions
    ensures var p := PendingOf(items, SessionKey(c));
            Leftover(sessions, items + [c]) ==
            if IsVisibleUserPrompt(c) then Leftover(sessions, items) - |p.responses| - p.hidden
            else Leftover(sessions, items) + 1
  {
    hide SessionKey, IsVisibleUserPrompt, IsAssistantResponse;
    assert (items + [c])[..|items|] == items;
    var rest := sessions[1..];
    assert sessions == [sessions[0]] + rest;
    DistinctCons(sessions[0], rest);
    if sessions[0] == SessionKey(c) {
      LeftoverElsewhere(rest, items, c);
    } else {
      LeftoverStep(rest, items, c);
    }
  }

  lemma {:induction false} LeftoverEmpty(sessions: seq<string>)
    ensures Leftover(sessions, []) == 0
  {
    if sessions == [] {
    } else {
      LeftoverEmpty(sessions[1..]);
    }
  }

  /**
   Nothing is lost or counted twice: prompts, responses and hidden counts of all turns, together with what
   is still pending, add up to the items.
   */
  lemma {:induction false} Conservation(items: seq<Card>, sessions: seq<string>)
    requires Distinct(sessions) && forall c | c in items :: SessionKey(c) in sessions
    ensures Size(Turns(items)) + Leftover(sessions, items) == |items|
    decreases |items|
  {
    hide SessionKey, IsVisibleUserPrompt, IsAssistantResponse, Leftover, See;
    if items == [] {
      LeftoverEmpty(sessions);
    } else {
      var init, c := items[..|items| - 1], items[|items| - 1];
      assert items == init + [c] && c in items;
      Conservation(init, sessions);
      LeftoverStep(sessions, init, c);
      var ts := Turns(init);
      if IsVisibleUserPrompt(c) {
        var t := TurnOf(PendingOf(init, SessionKey(c)), c);
        assert (ts + [t])[..|ts|] == ts;
      } else {
        assert ts + [] == ts;
      }
    }
  }

  function Joined(turns: seq<Turn>): seq<Card>
    decreases |turns|
  {
    if turns == [] then [] else Joined(turns[..|turns| - 1]) + turns[|turns| - 1].responses
  }

  lemma {:induction false} PendingInSession(items: seq<Card>, session: string)
    ensures forall c | c in PendingOf(items, session).responses :: SessionKey(c) == session
    decreases |items|
  {
    hide SessionKey, IsVisibleUserPrompt, IsAssistantResponse;
    if items == [] {
    } else {
      PendingInSession(items[..|items| - 1], session);
    }
  }

  lemma JoinedSnoc(turns: seq<Turn>, t: Turn)
    ensures Joined(turns + [t]) == Joined(turns) + t.responses
  {
    assert (turns + [t])[..|turns|] == turns;
  }

  /** How often a card has joined a turn or waits for one. */
  ghost function Uses(items: seq<Card>, c: Card): nat {
    multiset(Joined(Turns(items)))[c] + multiset(PendingOf(items, SessionKey(c)).responses)[c]
  }

  /** One more item uses no other card again, and itself at most once. */
  lemma UsesStep(init: seq<Card>, x: Card, c: Card)
    ensures Uses(init + [x], c) <= Uses(init, c) + if x == c then 1 else 0
  {
    hide SessionKey, IsVisibleUserPrompt, IsAssistantResponse, Reverse, PendingOf, Turns, Joined;
    var ts, p := Turns(init), PendingOf(init, SessionKey(x));
    TurnsSnoc(init, x);
    PendingSnoc(init, x, SessionKey(c));
    PendingInSession(init, SessionKey(x));
    if IsVisibleUserPrompt(x) {
      JoinedSnoc(ts, TurnOf(p, x));
      ReverseKeeps(p.responses);
    } else {
      assert ts + [] == ts;
    }
  }

  lemma NoneJoined()
    ensures Joined([]) == []
  {
  }

  /** A response joins at most one turn, and only while it is no longer pending. */
  lemma {:induction false} JoinsAtMostOnce(items: seq<Card>, c: Card)
    ensures multiset(Joined(Turns(items)))[c] + multiset(PendingOf(items, SessionKey(c)).responses)[c] <= multiset(items)[c]
    decreases |items|
  {
    hide SessionKey, Turns, PendingOf, Joined;
    if items == [] {
      NothingYet(SessionKey(c));
      NoneJoined();
    } else {
      var init, x := items[..|items| - 1], items[|items| - 1];
      assert items == init + [x];
      JoinsAtMostOnce(init, c);
      UsesStep(init, x, c);
    }
  }
}
