/**
  Properties that relate several operations of `Throttle`: loading then
  matching, recording a display then checking again, and a run of displays.
 */
module ThrottleLemmas {
  import opened Wrappers
  import opened CaseFold
  import opened CampaignJson
  import opened Throttle

  /**
    A loaded campaign matches an event exactly when one of the record's
    triggers equals the event name ignoring case.
   */
  lemma {:induction false} LoadedTriggersIgnoreCase(data: CampaignData, initialisedTime: int, event: string)
    requires LoadDefinition(data, initialisedTime).Success?
    ensures HasElementForEvent(LoadDefinition(data, initialisedTime).value, event) <==>
            exists t :: t in data.triggers.value && EqualsIgnoreCase(t, event)
  {
    var d := LoadDefinition(data, initialisedTime).value;
    var ts := data.triggers.value;
    LowerAllMembers(ts);
    assert d.triggers == Some(LowerAll(ts));
    if HasElementForEvent(d, event) {
      var x :| x in d.triggers.value && EqualsIgnoreCase(x, event);
      var t :| t in ts && ToLower(t) == x;
      assert EqualsIgnoreCase(t, event);
    }
    if t :| t in ts && EqualsIgnoreCase(t, event) {
      assert ToLower(t) in d.triggers.value && EqualsIgnoreCase(ToLower(t), event);
    }
  }

  /** The limits check looks at the event only through its case fold. */
  lemma DecideIgnoresEventCase(d: Definition, s: State, e1: string, e2: string, now: int, elementCount: int,
                               elementName: string, autoShowEvent: string)
    requires EqualsIgnoreCase(e1, e2)
    ensures Decide(d, s, e1, now, elementCount, elementName, autoShowEvent)
         == Decide(d, s, e2, now, elementCount, elementName, autoShowEvent)
  {
  }

  /**
    A limits check writes at most one entry, under the campaign id, and none
    at all when the event is not one of the campaign's triggers.
   */
  lemma ReasonsTouchOnlyCampaignId(d: Definition, s: State, event: string, now: int, elementCount: int,
                                   elementName: string, autoShowEvent: string, reasons: map<int, Reason>)
    ensures var v := Decide(d, s, event, now, elementCount, elementName, autoShowEvent);
      && Logged(reasons, d.id, v).Keys == (if v.Blocked? then reasons.Keys + {d.id} else reasons.Keys)
      && (forall k :: k in reasons && k != d.id ==> Logged(reasons, d.id, v)[k] == reasons[k])
      && (!HasElementForEvent(d, event) ==> Logged(reasons, d.id, v) == reasons)
      && (HasElementForEvent(d, event) && elementCount == 0 ==>
            Logged(reasons, d.id, v) == reasons[d.id := NoElements(elementName)])
  {
  }

  /**
    Right after a display, the same check at the same moment fails when the
    minimum delay is positive; if the cap is not reached by that display, it
    fails on the cooldown.
   */
  lemma ReshowAtSameTimeIsThrottled(d: Definition, s: State, event: string, now: int, elementCount: int,
                                    elementName: string, autoShowEvent: string)
    requires d.minDelayBetweenMessage > 0
    ensures Decide(d, AfterShown(d, s, now), event, now, elementCount, elementName, autoShowEvent) != Eligible
    ensures Decide(d, s, event, now, elementCount, elementName, autoShowEvent) == Eligible &&
            s.impressions + 1 < d.maxImpressions ==>
      Decide(d, AfterShown(d, s, now), event, now, elementCount, elementName, autoShowEvent)
        == Blocked(TooSoonAfterLastShown(elementName, AddSeconds(now, d.minDelayBetweenMessage)))
  {
  }

  /**
    After a display at `now`, a campaign that was eligible is eligible again at
    a later moment inside its window exactly when the cooldown has run out,
    as long as that display did not reach the cap.
   */
  lemma CooldownExpires(d: Definition, s: State, event: string, now: int, later: int, elementCount: int,
                        elementName: string, autoShowEvent: string)
    requires Decide(d, s, event, now, elementCount, elementName, autoShowEvent) == Eligible
    requires now <= later && ActiveAt(d, later)
    requires s.impressions + 1 < d.maxImpressions
    ensures Decide(d, AfterShown(d, s, now), event, later, elementCount, elementName, autoShowEvent) == Eligible
        <==> AddSeconds(now, d.minDelayBetweenMessage) <= later
  {
  }

  /** The state after a display at each of `times`, in order. */
  function ShownAt(d: Definition, s: State, times: seq<int>): State
    decreases times
  {
    if times == [] then s else ShownAt(d, AfterShown(d, s, times[0]), times[1..])
  }

  /**
    A run of displays adds exactly one impression each, leaves the campaign
    Seen and cooling down from the last one, and keeps the round-robin cursor.
   */
  lemma {:induction false} ShownAtEffect(d: Definition, s: State, times: seq<int>)
    requires times != []
    decreases times
    ensures ShownAt(d, s, times).impressions == s.impressions + |times|
    ensures ShownAt(d, s, times).status == Seen
    ensures ShownAt(d, s, times).next == s.next
    ensures ShownAt(d, s, times).showMessagesAfterDelay ==
            Some(AddSeconds(times[|times| - 1], d.minDelayBetweenMessage))
  {
    if |times| > 1 {
      ShownAtEffect(d, AfterShown(d, s, times[0]), times[1..]);
    }
  }

  /** Once the cap is reached no check passes, and further displays keep it reached. */
  lemma {:induction false} CapIsFinal(d: Definition, s: State, times: seq<int>, event: string, now: int,
                                      elementCount: int, elementName: string, autoShowEvent: string)
    requires s.impressions >= d.maxImpressions
    ensures ShownAt(d, s, times).impressions >= d.maxImpressions
    ensures Decide(d, ShownAt(d, s, times), event, now, elementCount, elementName, autoShowEvent) != Eligible
    decreases times
  {
    if times != [] {
      CapIsFinal(d, AfterShown(d, s, times[0]), times[1..], event, now, elementCount, elementName, autoShowEvent);
    }
  }

  // ---------------------------------------------------------------------------
  // A campaign running for ten days either side of t0

  const Day: int := 24 * 60 * 60 * 1000

  /**
    A record with one lower-case trigger (such as "session_start"), at most 3
    views, 60 s between views and no launch delay.
   */
  function ScenarioRecord(trigger: string, t0: int): CampaignData {
    CampaignData(
      id := Present(7),
      messageCenter := None,
      subject := None,
      triggers := Present([trigger]),
      rules := Present(RulesData(Present("round_robin"), Present(3), Present(0), Present(60))),
      startDate := Present(t0 - 10 * Day),
      endDate := Present(t0 + 10 * Day))
  }

  /** The definition the scenario record loads to, as far as the scenario needs it. */
  predicate ScenarioRules(d: Definition, event: string, t0: int, initialisedTime: int) {
    && HasElementForEvent(d, event)
    && d.maxImpressions == 3 && d.minDelayBetweenMessage == 60
    && d.showMessagesAfterLaunch == initialisedTime
    && d.startDate == t0 - 10 * Day && d.endDate == t0 + 10 * Day
  }

  lemma ScenarioDefinition(trigger: string, t0: int, initialisedTime: int)
    requires IsLowerCase(trigger)
    ensures LoadDefinition(ScenarioRecord(trigger, t0), initialisedTime).Success?
    ensures ScenarioRules(LoadDefinition(ScenarioRecord(trigger, t0), initialisedTime).value, trigger,
                          t0, initialisedTime)
  {
    LowerAllMembers([trigger]);
  }

  /**
    Shown at t0 on an event the campaign matches; 30 s
    later held back by the cooldown; 61 s later eligible again; after a third
    display no check passes.
   */
  lemma {:induction false} ThreeViewScenario(d: Definition, event: string, t0: int, initialisedTime: int,
                                             autoShowEvent: string, later: int)
    requires ScenarioRules(d, event, t0, initialisedTime) && initialisedTime <= t0
    ensures
      var first := AfterShown(d, FreshState, t0);
      && Decide(d, FreshState, event, t0, 1, "message", autoShowEvent) == Eligible
      && Decide(d, first, event, t0 + 30000, 1, "message", autoShowEvent)
           == Blocked(TooSoonAfterLastShown("message", t0 + 60000))
      && Decide(d, first, event, t0 + 61000, 1, "message", autoShowEvent) == Eligible
      && Decide(d, ShownAt(d, FreshState, [t0, t0 + 61000, t0 + 122000]), event, later, 1,
                "message", autoShowEvent)
           == (if ActiveAt(d, later) then Blocked(ImpressionCapReached(3))
               else if later < d.startDate then Blocked(NotStarted) else Blocked(Finished))
  {
    ShownAtEffect(d, FreshState, [t0, t0 + 61000, t0 + 122000]);
  }

  /** A stored trigger "Launch" matches the event "LAUNCH". */
  lemma {:induction false} LaunchMatchesUpperCase(data: CampaignData, initialisedTime: int)
    requires WellFormed(data) && data.triggers.value == ["Launch"]
    ensures HasElementForEvent(LoadDefinition(data, initialisedTime).value, "LAUNCH")
  {
    var stored, event := "Launch", "LAUNCH";
    assert EqualsIgnoreCase(stored, event) by {
      forall i | 0 <= i < |stored| ensures ToLower(stored)[i] == ToLower(event)[i] {
        assert ToLowerChar(stored[i]) == ToLowerChar(event[i]);
      }
    }
    assert stored in data.triggers.value;
    LoadedTriggersIgnoreCase(data, initialisedTime, event);
  }
}
