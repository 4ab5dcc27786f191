/**
  `SwrveBaseCampaign` as an object: the fields loading fills in, the saved state
  it updates in place, the reasons map it writes into, and the host controller
  it notifies. Each method is proved against the functions of `Throttle`.
 */
module Campaigns {
  import opened Wrappers
  import opened CaseFold
  import opened CampaignJson
  import opened Throttle

  /**
    The parts of the host controller (`SwrveBase`) a campaign uses: the time
    the SDK was initialised, the name of the auto-show event, and the global
    throttle, of which only the number of notifications is kept.
   */
  class Host {
    const initialisedTime: int
    const autoShowEventTrigger: string
    ghost var minDelayThrottleNotifications: nat

    constructor (initialisedTime: int, autoShowEventTrigger: string)
      ensures this.initialisedTime == initialisedTime
      ensures this.autoShowEventTrigger == autoShowEventTrigger
      ensures minDelayThrottleNotifications == 0
    {
      this.initialisedTime := initialisedTime;
      this.autoShowEventTrigger := autoShowEventTrigger;
      minDelayThrottleNotifications := 0;
    }

    /** `setMessageMinDelayThrottle`: the host is told that a message was just shown. */
    method SetMessageMinDelayThrottle()
      modifies this
      ensures minDelayThrottleNotifications == old(minDelayThrottleNotifications) + 1
    {
      minDelayThrottleNotifications := minDelayThrottleNotifications + 1;
    }
  }

  /** The caller's `Map<Integer, String>` of reasons, keyed by campaign id. */
  class ReasonLog {
    var entries: map<int, Reason>

    constructor ()
      ensures entries == map[]
    {
      entries := map[];
    }
  }

  /** `SwrveCampaignState`: what the SDK saves of a campaign between sessions. */
  class CampaignState {
    var next: int
    var impressions: int
    var status: Status
    var showMessagesAfterDelay: Option<int>

    constructor ()
      ensures Value() == FreshState
    {
      next, impressions, status, showMessagesAfterDelay := 0, 0, Unseen, None;
    }

    function Value(): State
      reads this
    {
      State(next, impressions, status, showMessagesAfterDelay)
    }
  }

  class Campaign {
    var id: int
    const talkController: Host
    var saveableState: CampaignState
    var startDate: int
    var endDate: int
    var triggers: Option<set<string>>
    var messageCenter: bool
    var subject: string
    var randomOrder: bool
    var maxImpressions: int
    var minDelayBetweenMessage: int
    var showMessagesAfterLaunch: int
    var delayFirstMessage: int

    /** The definition the fields hold. */
    ghost function Definition(): Throttle.Definition
      reads this
    {
      Throttle.Definition(id, startDate, endDate, triggers, messageCenter, subject, randomOrder,
                          maxImpressions, minDelayBetweenMessage, showMessagesAfterLaunch, delayFirstMessage)
    }

    /** The saved state, as a value. */
    ghost function State(): Throttle.State
      reads this, saveableState
    {
      saveableState.Value()
    }

    /**
      The first part of the constructor: id, message-center flag and subject
      are set, the state is empty, and the throttle rules take their defaults.
     */
    constructor (controller: Host, id: int, messageCenter: bool, subject: string)
      ensures this.id == id && this.messageCenter == messageCenter && this.subject == subject
      ensures talkController == controller
      ensures fresh(saveableState) && State() == FreshState
      ensures triggers == Some({}) && !randomOrder
      ensures maxImpressions == DefaultMaxImpressions
      ensures minDelayBetweenMessage == DefaultMinDelayBetweenMessages
      ensures showMessagesAfterLaunch == AddSeconds(controller.initialisedTime, DefaultDelayFirstMessage)
      ensures delayFirstMessage == 0
    {
      this.id := id;
      this.messageCenter := messageCenter;
      this.subject := subject;
      talkController := controller;
      triggers := Some({});
      saveableState := new CampaignState();
      maxImpressions := DefaultMaxImpressions;
      minDelayBetweenMessage := DefaultMinDelayBetweenMessages;
      showMessagesAfterLaunch := AddSeconds(controller.initialisedTime, DefaultDelayFirstMessage);
      delayFirstMessage := 0;
      randomOrder := false;
      startDate, endDate := 0, 0;
    }

    /**
      Loading a campaign from its record. A getter that throws ends the load
      with its error and the partly built campaign is dropped.
     */
    static method Load(controller: Host, campaignData: CampaignData) returns (r: Result<Campaign, JsonError>)
      ensures r.Failure? ==> LoadDefinition(campaignData, controller.initialisedTime) == Failure(r.error)
      ensures r.Success? ==>
        && LoadDefinition(campaignData, controller.initialisedTime) == Success(r.value.Definition())
        && fresh(r.value) && fresh(r.value.saveableState)
        && r.value.State() == FreshState
        && r.value.talkController == controller
    {
      var id :- Get(campaignData.id, "id");
      var campaign := new Campaign(controller, id, campaignData.messageCenter.GetOr(false),
                                   campaignData.subject.GetOr(""));
      :- campaign.AssignCampaignTriggers(campaignData);
      :- campaign.AssignCampaignRules(campaignData);
      :- campaign.AssignCampaignDates(campaignData);
      assert {} + LowerAll(campaignData.triggers.value) == LowerAll(campaignData.triggers.value);
      return Success(campaign);
    }

    /** Adds every trigger of the record, lower-cased, to the trigger set. */
    method AssignCampaignTriggers(campaignData: CampaignData) returns (o: Outcome<JsonError>)
      requires triggers.Some?
      modifies this`triggers
      ensures o == (if campaignData.triggers.Present? then Pass else Fail(Get(campaignData.triggers, "triggers").error))
      ensures o.Pass? ==> triggers == Some(old(triggers.value) + LowerAll(campaignData.triggers.value))
    {
      if !campaignData.triggers.Present? {
        return Fail(Get(campaignData.triggers, "triggers").error);
      }
      var jsonTriggers := campaignData.triggers.value;
      var i := 0;
      assert LowerAll(jsonTriggers[..i]) == {} by {
        assert jsonTriggers[..i] == [];
      }
      assert old(triggers.value) + {} == old(triggers.value);
      while i < |jsonTriggers|
        invariant 0 <= i <= |jsonTriggers|
        invariant triggers == Some(old(triggers.value) + LowerAll(jsonTriggers[..i]))
      {
        assert jsonTriggers[..i + 1][..i] == jsonTriggers[..i];
        assert LowerAll(jsonTriggers[..i + 1]) == LowerAll(jsonTriggers[..i]) + {ToLower(jsonTriggers[i])};
        assert old(triggers.value) + LowerAll(jsonTriggers[..i + 1])
            == old(triggers.value) + LowerAll(jsonTriggers[..i]) + {ToLower(jsonTriggers[i])};
        triggers := Some(triggers.value + {ToLower(jsonTriggers[i])});
        i := i + 1;
      }
      assert jsonTriggers[..i] == jsonTriggers;
      return Pass;
    }

    /** Reads the display order and lets each rule present override its default. */
    method AssignCampaignRules(campaignData: CampaignData) returns (o: Outcome<JsonError>)
      modifies this`randomOrder, this`maxImpressions, this`delayFirstMessage,
               this`showMessagesAfterLaunch, this`minDelayBetweenMessage
      ensures o.Pass? <==>
        && campaignData.rules.Present?
        && campaignData.rules.value.displayOrder.Present?
        && !campaignData.rules.value.dismissAfterViews.Malformed?
        && !campaignData.rules.value.delayFirstMessage.Malformed?
        && !campaignData.rules.value.minDelayBetweenMessages.Malformed?
      ensures o.Pass? ==>
        var rules := campaignData.rules.value;
        && (randomOrder <==> rules.displayOrder.value == "random")
        && maxImpressions == Override(rules.dismissAfterViews, old(maxImpressions))
        && delayFirstMessage == Override(rules.delayFirstMessage, old(delayFirstMessage))
        && showMessagesAfterLaunch ==
             (if rules.delayFirstMessage.Present?
              then AddSeconds(talkController.initialisedTime, rules.delayFirstMessage.value)
              else old(showMessagesAfterLaunch))
        && minDelayBetweenMessage == Override(rules.minDelayBetweenMessages, old(minDelayBetweenMessage))
      ensures o.Fail? && campaignData.id.Present? && campaignData.triggers.Present? ==>
        LoadDefinition(campaignData, talkController.initialisedTime) == Failure(o.error)
    {
      var rulesResult := Get(campaignData.rules, "rules");
      if rulesResult.Failure? {
        return Fail(rulesResult.error);
      }
      var rules := rulesResult.value;
      var displayOrder := Get(rules.displayOrder, "display_order");
      if displayOrder.Failure? {
        return Fail(displayOrder.error);
      }
      randomOrder := displayOrder.value == "random";

      var dismissAfterViews := GetIfPresent(rules.dismissAfterViews, "dismiss_after_views");
      if dismissAfterViews.Failure? {
        return Fail(dismissAfterViews.error);
      }
      if dismissAfterViews.value.Some? {
        SetMaxImpressions(dismissAfterViews.value.value);
      }

      var delay := GetIfPresent(rules.delayFirstMessage, "delay_first_message");
      if delay.Failure? {
        return Fail(delay.error);
      }
      if delay.value.Some? {
        delayFirstMessage := delay.value.value;
        showMessagesAfterLaunch := AddSeconds(talkController.initialisedTime, delayFirstMessage);
      }

      var minDelay := GetIfPresent(rules.minDelayBetweenMessages, "min_delay_between_messages");
      if minDelay.Failure? {
        return Fail(minDelay.error);
      }
      if minDelay.value.Some? {
        minDelayBetweenMessage := minDelay.value.value;
      }
      return Pass;
    }

    method AssignCampaignDates(campaignData: CampaignData) returns (o: Outcome<JsonError>)
      modifies this`startDate, this`endDate
      ensures o.Pass? <==> campaignData.startDate.Present? && campaignData.endDate.Present?
      ensures o.Fail? ==> o.error == (if campaignData.startDate.Present?
                                      then Get(campaignData.endDate, "end_date").error
                                      else Get(campaignData.startDate, "start_date").error)
      ensures o.Pass? ==> startDate == campaignData.startDate.value && endDate == campaignData.endDate.value
    {
      var start := Get(campaignData.startDate, "start_date");
      if start.Failure? {
        return Fail(start.error);
      }
      startDate := start.value;
      var end := Get(campaignData.endDate, "end_date");
      if end.Failure? {
        return Fail(end.error);
      }
      endDate := end.value;
      return Pass;
    }
    // -------------------------------------------------------------------------
    // Queries

    /** `isActive`: the date check without a reasons map. */
    method IsActive(now: int) returns (r: bool)
      ensures r <==> startDate <= now <= endDate
    {
      r := CheckForStartAndEndDate(now, null);
    }

    method HasElementForEvent(eventName: string) returns (r: bool)
      ensures r == Throttle.HasElementForEvent(Definition(), eventName)
    {
      var lowerCaseEvent := ToLower(eventName);
      r := triggers.Some? && lowerCaseEvent in triggers.value;
    }

    method IsTooSoonToShowMessageAfterLaunch(now: int) returns (r: bool)
      ensures r <==> now < showMessagesAfterLaunch
    {
      r := now < showMessagesAfterLaunch;
    }

    method IsTooSoonToShowMessageAfterDelay(now: int) returns (r: bool)
      ensures r <==> IsTooSoonAfterDelay(State(), now)
    {
      r := saveableState.showMessagesAfterDelay.Some? && now < saveableState.showMessagesAfterDelay.value;
    }

    /** Puts `reason` under this campaign's id, when the caller supplied a map. */
    method LogAndAddReason(campaignReasons: ReasonLog?, reason: Reason)
      modifies campaignReasons
      ensures campaignReasons != null ==> campaignReasons.entries == old(campaignReasons.entries)[id := reason]
    {
      if campaignReasons != null {
        campaignReasons.entries := campaignReasons.entries[id := reason];
      }
    }

    /** `checkForStartAndEndDate`: true inside the active window, else one reason is written. */
    method CheckForStartAndEndDate(now: int, campaignReasons: ReasonLog?) returns (r: bool)
      modifies campaignReasons
      ensures r <==> ActiveAt(Definition(), now)
      ensures campaignReasons != null ==>
        campaignReasons.entries ==
          (if r then old(campaignReasons.entries) else old(campaignReasons.entries)[id := DateCheck(Definition(), now).value])
    {
      if startDate > now {
        LogAndAddReason(campaignReasons, NotStarted);
        return false;
      }
      if endDate < now {
        LogAndAddReason(campaignReasons, Finished);
        return false;
      }
      return true;
    }

    /**
      `checkCampaignLimits`: decides as `Decide` does, writes the reason of a
      blocked verdict into the caller's map, and changes nothing else.
     */
    method CheckCampaignLimits(event: string, now: int, campaignReasons: ReasonLog?, elementCount: int,
                               elementName: string) returns (r: bool)
      modifies campaignReasons
      ensures var v := Decide(Definition(), State(), event, now, elementCount, elementName,
                              talkController.autoShowEventTrigger);
        && (r <==> v == Eligible)
        && (campaignReasons != null ==> campaignReasons.entries == Logged(old(campaignReasons.entries), id, v))
      ensures unchanged(saveableState)
    {
      var matches := HasElementForEvent(event);
      if !matches {
        return false;
      }

      if elementCount == 0 {
        LogAndAddReason(campaignReasons, NoElements(elementName));
        return false;
      }

      var active := CheckForStartAndEndDate(now, campaignReasons);
      if !active {
        return false;
      }

      if saveableState.impressions >= maxImpressions {
        LogAndAddReason(campaignReasons, ImpressionCapReached(maxImpressions));
        return false;
      }

      // The auto-show event ignores the delay after launch
      var tooSoonAfterLaunch := IsTooSoonToShowMessageAfterLaunch(now);
      if !EqualsIgnoreCase(event, talkController.autoShowEventTrigger) && tooSoonAfterLaunch {
        LogAndAddReason(campaignReasons, TooSoonAfterLaunch(showMessagesAfterLaunch));
        return false;
      }

      var tooSoonAfterDelay := IsTooSoonToShowMessageAfterDelay(now);
      if tooSoonAfterDelay {
        LogAndAddReason(campaignReasons, TooSoonAfterLastShown(elementName, saveableState.showMessagesAfterDelay.value));
        return false;
      }

      return true;
    }

    // -------------------------------------------------------------------------
    // State updates

    method SetNext(next: int)
      modifies saveableState
      ensures State() == old(State()).(next := next)
    {
      saveableState.next := next;
    }

    method SetImpressions(impressions: int)
      modifies saveableState
      ensures State() == old(State()).(impressions := impressions)
    {
      saveableState.impressions := impressions;
    }

    method SetStatus(status: Status)
      modifies saveableState
      ensures State() == old(State()).(status := status)
    {
      saveableState.status := status;
    }

    method SetMaxImpressions(maxImpressions: int)
      modifies this`maxImpressions
      ensures this.maxImpressions == maxImpressions
    {
      this.maxImpressions := maxImpressions;
    }

    method SetTriggers(triggers: Option<set<string>>)
      modifies this`triggers
      ensures this.triggers == triggers
    {
      this.triggers := triggers;
    }

    /** Replaces the state, for example by one restored from storage. */
    method SetSaveableState(saveableState: CampaignState)
      modifies this`saveableState
      ensures this.saveableState == saveableState
    {
      this.saveableState := saveableState;
    }

    method IncrementImpressions()
      modifies saveableState
      ensures State() == old(State()).(impressions := old(State()).impressions + 1)
    {
      saveableState.impressions := saveableState.impressions + 1;
    }

    /** No message until `now` plus the minimum delay; the host is notified. */
    method SetMessageMinDelayThrottle(now: int)
      modifies saveableState, talkController
      ensures State() == old(State()).(showMessagesAfterDelay := Some(AddSeconds(now, minDelayBetweenMessage)))
      ensures talkController.minDelayThrottleNotifications == old(talkController.minDelayThrottleNotifications) + 1
    {
      saveableState.showMessagesAfterDelay := Some(AddSeconds(now, minDelayBetweenMessage));
      talkController.SetMessageMinDelayThrottle();
    }

    /** Records that the campaign was displayed at time `now`. */
    method MessageWasShownToUser(now: int)
      modifies saveableState, talkController
      ensures saveableState.status == Seen
      ensures saveableState.impressions == old(saveableState.impressions) + 1
      ensures saveableState.showMessagesAfterDelay == Some(AddSeconds(now, minDelayBetweenMessage))
      ensures saveableState.next == old(saveableState.next)
      ensures State() == AfterShown(Definition(), old(State()), now)
      ensures talkController.minDelayThrottleNotifications == old(talkController.minDelayThrottleNotifications) + 1
    {
      SetStatus(Seen);
      IncrementImpressions();
      SetMessageMinDelayThrottle(now);
    }
  }
}
