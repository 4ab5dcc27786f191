/**
  The campaign eligibility and throttling rules of `SwrveBaseCampaign`, stated
  over immutable values: a campaign `Definition` (what loading the campaign
  record produces) and the saved `State` of the campaign. Times are epoch
  milliseconds; durations in the campaign record are seconds.
 */
module Throttle {
  import opened Wrappers
  import opened CaseFold
  import opened CampaignJson

  // Default campaign throttle limits
  const DefaultDelayFirstMessage: int := 180
  const DefaultMaxImpressions: int := 99999
  const DefaultMinDelayBetweenMessages: int := 60

  /** `SwrveHelper.addTimeInterval(t, seconds, Calendar.SECOND)` on millisecond time stamps. */
  function AddSeconds(t: int, seconds: int): int {
    t + seconds * 1000
  }

  datatype Status = Unseen | Seen

  /** The saved state of a campaign (`SwrveCampaignState`). */
  datatype State = State(
    next: int,
    impressions: int,
    status: Status,
    showMessagesAfterDelay: Option<int>)

  /** The state a campaign starts a session with when nothing was saved. */
  const FreshState := State(0, 0, Unseen, None)

  /** What loading a campaign record fixes. */
  datatype Definition = Definition(
    id: int,
    startDate: int,
    endDate: int,
    triggers: Option<set<string>>,
    messageCenter: bool,
    subject: string,
    randomOrder: bool,
    maxImpressions: int,
    minDelayBetweenMessage: int,
    showMessagesAfterLaunch: int,
    delayFirstMessage: int)

  /** Why a campaign whose trigger matched may not be shown; the key is the campaign id. */
  datatype Reason =
    | NotStarted
    | Finished
    | NoElements(elementName: string)
    | ImpressionCapReached(maxImpressions: int)
    | TooSoonAfterLaunch(waitUntil: int)
    | TooSoonAfterLastShown(elementName: string, waitUntil: int)

  /** The outcome of the limits check: shown, not for this event, or held back for a reason. */
  datatype Verdict = Eligible | NoTrigger | Blocked(reason: Reason)

  // ---------------------------------------------------------------------------
  // Loading

  /** The set of lower-cased trigger names, added one by one in array order. */
  function LowerAll(ts: seq<string>): set<string> {
    if ts == [] then {} else LowerAll(ts[..|ts| - 1]) + {ToLower(ts[|ts| - 1])}
  }

  /** The stored triggers are exactly the folds of the record's triggers, all of them lower case. */
  lemma {:induction false} LowerAllMembers(ts: seq<string>)
    ensures forall t :: t in ts ==> ToLower(t) in LowerAll(ts)
    ensures forall x :: x in LowerAll(ts) ==> exists t :: t in ts && ToLower(t) == x
    ensures forall x :: x in LowerAll(ts) ==> IsLowerCase(x)
  {
    if ts != [] {
      var init, last := ts[..|ts| - 1], ts[|ts| - 1];
      LowerAllMembers(init);
      assert ts == init + [last];
      forall x | x in LowerAll(ts) ensures exists t :: t in ts && ToLower(t) == x {
        if x == ToLower(last) {
          assert last in ts;
        } else {
          var t :| t in init && ToLower(t) == x;
          assert t in ts;
        }
      }
    }
  }

  /** Every getter of the loader succeeds on `data`. */
  predicate WellFormed(data: CampaignData) {
    && data.id.Present?
    && data.triggers.Present?
    && data.rules.Present?
    && data.rules.value.displayOrder.Present?
    && !data.rules.value.dismissAfterViews.Malformed?
    && !data.rules.value.delayFirstMessage.Malformed?
    && !data.rules.value.minDelayBetweenMessages.Malformed?
    && data.startDate.Present?
    && data.endDate.Present?
  }

  /** Overrides `default` when the optional member is present. */
  function Override(f: Field<int>, default: int): int {
    if f.Present? then f.value else default
  }

  /**
    Loading a campaign record, given the time the SDK was initialised. The
    members are read in the order the constructor reads them, so the error is
    the one of the first getter that throws.
   */
  function LoadDefinition(data: CampaignData, initialisedTime: int): (r: Result<Definition, JsonError>)
    ensures r.Success? <==> WellFormed(data)
    ensures data.id.Absent? ==> r == Failure(NotFound("id"))
    ensures data.id.Present? && data.triggers.Absent? ==> r == Failure(NotFound("triggers"))
    ensures r.Success? ==>
      var d, rules := r.value, data.rules.value;
      && d.id == data.id.value
      && d.messageCenter == data.messageCenter.GetOr(false)
      && d.subject == data.subject.GetOr("")
      && d.triggers.Some?
      && (forall t :: t in data.triggers.value ==> ToLower(t) in d.triggers.value)
      && (forall x :: x in d.triggers.value ==> exists t :: t in data.triggers.value && ToLower(t) == x)
      && (forall x :: x in d.triggers.value ==> IsLowerCase(x))
      && (d.randomOrder <==> rules.displayOrder.value == "random")
      && d.maxImpressions == Override(rules.dismissAfterViews, DefaultMaxImpressions)
      && d.minDelayBetweenMessage == Override(rules.minDelayBetweenMessages, DefaultMinDelayBetweenMessages)
      && d.delayFirstMessage == Override(rules.delayFirstMessage, 0)
      && d.showMessagesAfterLaunch ==
           AddSeconds(initialisedTime, Override(rules.delayFirstMessage, DefaultDelayFirstMessage))
      && d.startDate == data.startDate.value
      && d.endDate == data.endDate.value
  {
    var id :- Get(data.id, "id");
    var jsonTriggers :- Get(data.triggers, "triggers");
    var rules :- Get(data.rules, "rules");
    var displayOrder :- Get(rules.displayOrder, "display_order");
    var dismissAfterViews :- GetIfPresent(rules.dismissAfterViews, "dismiss_after_views");
    var delayFirstMessage :- GetIfPresent(rules.delayFirstMessage, "delay_first_message");
    var minDelay :- GetIfPresent(rules.minDelayBetweenMessages, "min_delay_between_messages");
    var startDate :- Get(data.startDate, "start_date");
    var endDate :- Get(data.endDate, "end_date");
    LowerAllMembers(jsonTriggers);
    Success(Definition(
      id := id,
      startDate := startDate,
      endDate := endDate,
      triggers := Some(LowerAll(jsonTriggers)),
      messageCenter := data.messageCenter.GetOr(false),
      subject := data.subject.GetOr(""),
      randomOrder := displayOrder == "random",
      maxImpressions := dismissAfterViews.GetOr(DefaultMaxImpressions),
      minDelayBetweenMessage := minDelay.GetOr(DefaultMinDelayBetweenMessages),
      // the field stays 0 unless the rules set it, while the launch delay defaults to 180 s
      showMessagesAfterLaunch := AddSeconds(initialisedTime, delayFirstMessage.GetOr(DefaultDelayFirstMessage)),
      delayFirstMessage := delayFirstMessage.GetOr(0)))
  }

  // ---------------------------------------------------------------------------
  // Queries

  /** The active window, both ends included. */
  predicate ActiveAt(d: Definition, now: int) {
    d.startDate <= now <= d.endDate
  }

  /** `checkForStartAndEndDate`: None when the campaign is active, else the reason it is not. */
  function DateCheck(d: Definition, now: int): (r: Option<Reason>)
    ensures r.None? <==> ActiveAt(d, now)
    ensures r == Some(NotStarted) <==> now < d.startDate
    ensures r == Some(Finished) <==> d.startDate <= now && d.endDate < now
  {
    if d.startDate > now then Some(NotStarted)
    else if d.endDate < now then Some(Finished)
    else None
  }

  /** All stored trigger names are lower case, as loading leaves them. */
  predicate TriggersFolded(d: Definition) {
    d.triggers.Some? ==> forall t :: t in d.triggers.value ==> IsLowerCase(t)
  }

  /**
    `hasElementForEvent`: the lower-cased event name is a stored trigger. With
    the triggers stored folded this is a case-insensitive match; with no trigger
    set it is false.
   */
  function HasElementForEvent(d: Definition, eventName: string): (r: bool)
    ensures d.triggers.None? ==> !r
    ensures r ==> exists t :: t in d.triggers.value && EqualsIgnoreCase(t, eventName)
    ensures TriggersFolded(d) ==>
      (r <==> d.triggers.Some? && exists t :: t in d.triggers.value && EqualsIgnoreCase(t, eventName))
  {
    if d.triggers.None? then false
    else
      var lowerCaseEvent := ToLower(eventName);
      assert EqualsIgnoreCase(lowerCaseEvent, eventName);
      lowerCaseEvent in d.triggers.value
  }

  predicate IsTooSoonAfterLaunch(d: Definition, now: int) {
    now < d.showMessagesAfterLaunch
  }

  predicate IsTooSoonAfterDelay(s: State, now: int) {
    s.showMessagesAfterDelay.Some? && now < s.showMessagesAfterDelay.value
  }

  /**
    Every gate of the limits check, in no particular order: the event is a
    trigger, there is something to show, the campaign is active, the cap is not
    reached, launch delay over (the auto-show event skips it), cooldown over.
   */
  predicate PassesAllGates(d: Definition, s: State, event: string, now: int, elementCount: int, autoShowEvent: string) {
    && HasElementForEvent(d, event)
    && elementCount != 0
    && ActiveAt(d, now)
    && s.impressions < d.maxImpressions
    && (EqualsIgnoreCase(event, autoShowEvent) || d.showMessagesAfterLaunch <= now)
    && (s.showMessagesAfterDelay.Some? ==> s.showMessagesAfterDelay.value <= now)
  }

  /**
    `checkCampaignLimits`: the gates are tried in order and the first that fails
    decides. Every gate but the trigger match names a reason.
   */
  function Decide(d: Definition, s: State, event: string, now: int, elementCount: int,
                  elementName: string, autoShowEvent: string): (r: Verdict)
    ensures r == Eligible <==> PassesAllGates(d, s, event, now, elementCount, autoShowEvent)
    ensures r == NoTrigger <==> !HasElementForEvent(d, event)
    ensures r == Blocked(NoElements(elementName)) <==> HasElementForEvent(d, event) && elementCount == 0
    ensures r == Blocked(NotStarted) <==>
      HasElementForEvent(d, event) && elementCount != 0 && now < d.startDate
    ensures r == Blocked(Finished) <==>
      HasElementForEvent(d, event) && elementCount != 0 && d.startDate <= now && d.endDate < now
    ensures r == Blocked(ImpressionCapReached(d.maxImpressions)) <==>
      HasElementForEvent(d, event) && elementCount != 0 && ActiveAt(d, now) && s.impressions >= d.maxImpressions
    ensures r == Blocked(TooSoonAfterLaunch(d.showMessagesAfterLaunch)) <==>
      && HasElementForEvent(d, event) && elementCount != 0 && ActiveAt(d, now) && s.impressions < d.maxImpressions
      && !EqualsIgnoreCase(event, autoShowEvent) && now < d.showMessagesAfterLaunch
    ensures r.Blocked? && r.reason.TooSoonAfterLastShown? <==>
      && HasElementForEvent(d, event) && elementCount != 0 && ActiveAt(d, now) && s.impressions < d.maxImpressions
      && (EqualsIgnoreCase(event, autoShowEvent) || d.showMessagesAfterLaunch <= now)
      && IsTooSoonAfterDelay(s, now)
    ensures r.Blocked? && r.reason.TooSoonAfterLastShown? ==>
      r.reason == TooSoonAfterLastShown(elementName, s.showMessagesAfterDelay.value)
  {
    if !HasElementForEvent(d, event) then NoTrigger
    else if elementCount == 0 then Blocked(NoElements(elementName))
    else if DateCheck(d, now).Some? then Blocked(DateCheck(d, now).value)
    else if s.impressions >= d.maxImpressions then Blocked(ImpressionCapReached(d.maxImpressions))
    // the auto-show event skips the delay after launch
    else if !EqualsIgnoreCase(event, autoShowEvent) && IsTooSoonAfterLaunch(d, now) then
      Blocked(TooSoonAfterLaunch(d.showMessagesAfterLaunch))
    else if IsTooSoonAfterDelay(s, now) then
      Blocked(TooSoonAfterLastShown(elementName, s.showMessagesAfterDelay.value))
    else Eligible
  }

  /** The reasons map after a limits check: a blocked verdict writes its reason under the campaign id. */
  function Logged(reasons: map<int, Reason>, id: int, v: Verdict): (r: map<int, Reason>)
    ensures v.Blocked? ==> id in r && r[id] == v.reason
    ensures !v.Blocked? ==> r == reasons
    ensures forall k :: k in r ==> k in reasons || k == id
    ensures forall k :: k in reasons && k != id ==> k in r && r[k] == reasons[k]
  {
    if v.Blocked? then reasons[id := v.reason] else reasons
  }

  // ---------------------------------------------------------------------------
  // Recording a display

  /** `messageWasShownToUser` at time `now`: Seen, one more impression, cooldown until now + delay. */
  function AfterShown(d: Definition, s: State, now: int): (r: State)
    ensures r.status == Seen && r.next == s.next
    ensures r.impressions == s.impressions + 1
    ensures r.showMessagesAfterDelay == Some(now + d.minDelayBetweenMessage * 1000)
    ensures IsTooSoonAfterDelay(r, now) <==> d.minDelayBetweenMessage > 0
    ensures !IsTooSoonAfterDelay(r, now + d.minDelayBetweenMessage * 1000)
  {
    s.(status := Seen,
       impressions := s.impressions + 1,
       showMessagesAfterDelay := Some(AddSeconds(now, d.minDelayBetweenMessage)))
  }
}
