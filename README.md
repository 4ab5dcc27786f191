# Campaign eligibility and throttling of the Swrve Android SDK

This project models the in-app message campaign engine of
`SwrveBaseCampaign`. The engine loads a campaign definition from its record
and folds the trigger names to lower case. It applies default throttle limits
and lets the campaign's `rules` override them. It then answers whether the
campaign may be shown for an event at a given time. Finally it records each
display in the campaign's saved state.

Layout:

- `wrappers.dfy` (`Wrappers`): `Option`, `Result` and `Outcome`.
- `case_fold.dfy` (`CaseFold`): an ASCII model of `toLowerCase(Locale.US)`. It
  also has `equalsIgnoreCase`, written the way `regionMatches` compares
  characters and proved to agree with comparing the two folds.
- `campaign_json.dfy` (`CampaignJson`): the campaign record as the JSON
  parser hands it over. Each member is absent, present, or present with a
  value the getter rejects. The required getters (`getInt`, `getJSONArray`,
  ...) fail with `NotFound` or `TypeMismatch`.
- `throttle.dfy` (`Throttle`): the rules stated over values. A campaign
  `Definition` and its saved `State` are immutable values here.
  `LoadDefinition` loads a record. `DateCheck` is the start/end check and
  `HasElementForEvent` is trigger matching. `Decide` is the ordered gate
  sequence of `checkCampaignLimits`. `AfterShown` is the effect of
  `messageWasShownToUser`.
- `throttle_lemmas.dfy` (`ThrottleLemmas`): properties that relate several
  operations. Examples: loading then matching, a display then a re-check,
  and a run of displays up to the impression cap.
- `campaign.dfy` (`Campaigns`): the object model.
  - `Campaign` has the fields of `SwrveBaseCampaign`.
  - `CampaignState` is the saved state, which the campaign updates in place.
  - `ReasonLog` is the caller's reasons map. It is nullable, as in the source.
  - `Host` is the controller. It has the init time, the auto-show event name
    and a ghost count of `setMessageMinDelayThrottle` notifications.
  - Every method is proved against the `Throttle` functions, either through
    `Definition()` and `State()` or through the fields directly.

Times are integer milliseconds. `addTimeInterval(t, s, Calendar.SECOND)` is
`AddSeconds(t, s) = t + s * 1000`. The controller's clock (`getNow()`) becomes
the `now` parameter of `MessageWasShownToUser`. The getters (`getId`,
`getNext`, `getImpressions`, `getMaxImpressions`, `getStatus`, `getTriggers`,
`getDelayFirstMessage`, `getSaveableState`, ...) are the fields themselves.
The protected setters that only loading uses (`setId`, `setSubject`,
`setMessageCenter`, `setRandomOrder`, `setStartDate`, `setEndDate`,
`setTalkController`) are the assignments in the constructor and in the
`Assign...` methods.

Three details of the code that are easy to misread:

- The `delayFirstMessage` field stays 0 unless `rules.delay_first_message` is
  present. The launch delay still uses the 180 s default.
- A `subject` that is missing, and not only one that is JSON null, becomes "".
- A malformed optional rule (present but not a number) fails the load,
  because `getInt` throws after `has` succeeds.

## Model

| member | source | states |
|---|---|---|
| `CaseFold.ToLower` | SwrveSDK/src/main/java/com/swrve/sdk/messaging/SwrveBaseCampaign.java:222 | the fold keeps the length and lower-cases each character on its own; its result has no upper-case letter; a string that has none is returned unchanged |
| `CaseFold.EqualsIgnoreCase` | SwrveSDK/src/main/java/com/swrve/sdk/messaging/SwrveBaseCampaign.java:332 | the character-by-character ignore-case comparison (equal, or equal upper case, or equal lower case of upper case) holds exactly when the two case folds are equal |
| `Throttle.LowerAllMembers` | SwrveSDK/src/main/java/com/swrve/sdk/messaging/SwrveBaseCampaign.java:250-256 | the trigger set built by folding and adding each trigger holds the fold of every record trigger, nothing else, and only lower-case names |
| `Throttle.LoadDefinition` | SwrveSDK/src/main/java/com/swrve/sdk/messaging/SwrveBaseCampaign.java:69-88 | loading succeeds exactly when every required getter succeeds and no optional rule is malformed; a missing `id` is the error reported first; on success: message center defaults to false, subject to "", triggers are stored folded, max impressions default to 99999, min delay to 60 s, launch delay to 180 s after init; each rule present overrides its default; `delayFirstMessage` stays 0 without the rule; dates are copied |
| `Throttle.DateCheck` | SwrveSDK/src/main/java/com/swrve/sdk/messaging/SwrveBaseCampaign.java:299-309 | no reason exactly when start <= now <= end (both ends inclusive); "not started" exactly when now < start; "finished" exactly when start <= now and end < now |
| `Throttle.HasElementForEvent` | SwrveSDK/src/main/java/com/swrve/sdk/messaging/SwrveBaseCampaign.java:221-224 | false when there is no trigger set; a match implies some stored trigger equals the event ignoring case; when the stored triggers are folded, a match happens exactly when one of them equals the event ignoring case |
| `Throttle.Decide` | SwrveSDK/src/main/java/com/swrve/sdk/messaging/SwrveBaseCampaign.java:311-343 | eligible exactly when all six gates pass; not-for-me exactly when no trigger matches; each reason (no elements, not started, finished, cap reached, too soon after launch unless the event is the auto-show event ignoring case, too soon after the last display) is given exactly when its gate is the first to fail |
| `Throttle.Logged` | SwrveSDK/src/main/java/com/swrve/sdk/messaging/SwrveBaseCampaign.java:234-237 | after a limits check, a blocked verdict's reason is stored under the campaign id; every other key keeps its entry and no other key is added; a verdict that is not blocked leaves the map as it was |
| `Throttle.AfterShown` | SwrveSDK/src/main/java/com/swrve/sdk/messaging/SwrveBaseCampaign.java:366-370 | after a display the campaign is Seen, has one more impression and keeps its cursor; the cooldown deadline is now + min delay, so a re-check at the same moment is too soon exactly when the min delay is positive, and one at the deadline is not |
| `ThrottleLemmas.LoadedTriggersIgnoreCase` | SwrveSDK/src/main/java/com/swrve/sdk/messaging/SwrveBaseCampaign.java:250-256 | a loaded campaign matches an event exactly when some trigger of the record equals the event ignoring case |
| `ThrottleLemmas.LaunchMatchesUpperCase` | SwrveSDK/src/main/java/com/swrve/sdk/messaging/SwrveBaseCampaign.java:221-224 | a campaign loaded with trigger "Launch" matches the event "LAUNCH" |
| `ThrottleLemmas.DecideIgnoresEventCase` | SwrveSDK/src/main/java/com/swrve/sdk/messaging/SwrveBaseCampaign.java:311-335 | two event names that are equal ignoring case get the same verdict |
| `ThrottleLemmas.ReasonsTouchOnlyCampaignId` | SwrveSDK/src/main/java/com/swrve/sdk/messaging/SwrveBaseCampaign.java:234-239 | a check writes at most one entry, under the campaign id, and keeps every other entry; it writes nothing when the trigger does not match; it writes exactly the no-elements reason when the trigger matches and there are no elements |
| `ThrottleLemmas.ReshowAtSameTimeIsThrottled` | SwrveSDK/src/main/java/com/swrve/sdk/messaging/SwrveBaseCampaign.java:366-370 | with a positive minimum delay, the same check right after a display at the same moment is never eligible; if it was eligible before and the display did not reach the cap, it is blocked by the cooldown until now + delay |
| `ThrottleLemmas.CooldownExpires` | SwrveSDK/src/main/java/com/swrve/sdk/messaging/SwrveBaseCampaign.java:230-231 | after a display of an eligible campaign, a later check inside the window is eligible again exactly when now + delay has been reached, as long as the cap was not reached |
| `ThrottleLemmas.ShownAtEffect` | SwrveSDK/src/main/java/com/swrve/sdk/messaging/SwrveBaseCampaign.java:366-370 | a run of n displays adds exactly n impressions, leaves the campaign Seen with the cooldown set from the last display, and keeps the round-robin cursor |
| `ThrottleLemmas.CapIsFinal` | SwrveSDK/src/main/java/com/swrve/sdk/messaging/SwrveBaseCampaign.java:326-329 | once impressions reach the cap, further displays keep them there and no check is eligible |
| `ThrottleLemmas.ScenarioDefinition` | SwrveSDK/src/main/java/com/swrve/sdk/messaging/SwrveBaseCampaign.java:258-281 | a record with one lower-case trigger, 3 views, 60 s between views and no launch delay loads to a campaign that matches that trigger, has those limits and a launch time equal to init |
| `ThrottleLemmas.ThreeViewScenario` | SwrveSDK/src/main/java/com/swrve/sdk/messaging/SwrveBaseCampaign.java:311-343 | such a campaign is eligible at t0; after a display it is blocked by the cooldown at t0+30 s and eligible at t0+61 s; after three displays every check is blocked (cap reached inside the window) |
| `Campaigns.Host.SetMessageMinDelayThrottle` | SwrveSDK/src/main/java/com/swrve/sdk/messaging/SwrveBaseCampaign.java:296 | the host's notification count goes up by one |
| `Campaigns.Campaign.constructor` | SwrveSDK/src/main/java/com/swrve/sdk/messaging/SwrveBaseCampaign.java:69-83 | id, message-center flag and subject as given; a fresh empty saved state; an empty trigger set; defaults 99999 impressions, 60 s between messages, launch at init + 180 s, `delayFirstMessage` 0 |
| `Campaigns.Campaign.Load` | SwrveSDK/src/main/java/com/swrve/sdk/messaging/SwrveBaseCampaign.java:69-88 | the step-by-step load fails with exactly the error of `LoadDefinition`; on success it produces a fresh campaign whose fields are the loaded definition and whose state is fresh |
| `Campaigns.Campaign.AssignCampaignTriggers` | SwrveSDK/src/main/java/com/swrve/sdk/messaging/SwrveBaseCampaign.java:250-256 | fails exactly when `triggers` is not an array; otherwise the loop adds the fold of every record trigger to the trigger set |
| `Campaigns.Campaign.AssignCampaignRules` | SwrveSDK/src/main/java/com/swrve/sdk/messaging/SwrveBaseCampaign.java:258-276 | fails exactly when `rules` or `display_order` is missing or a present rule is malformed; random order exactly when `display_order` is "random"; each present rule overrides its field; `delay_first_message` also resets the launch time to init + delay |
| `Campaigns.Campaign.AssignCampaignDates` | SwrveSDK/src/main/java/com/swrve/sdk/messaging/SwrveBaseCampaign.java:278-281 | start and end dates copied; `start_date` is read first, so its error comes first |
| `Campaigns.Campaign.IsActive` | SwrveSDK/src/main/java/com/swrve/sdk/messaging/SwrveBaseCampaign.java:133-135 | true exactly when start <= now <= end |
| `Campaigns.Campaign.HasElementForEvent` | SwrveSDK/src/main/java/com/swrve/sdk/messaging/SwrveBaseCampaign.java:221-224 | agrees with `Throttle.HasElementForEvent` on the campaign's fields |
| `Campaigns.Campaign.IsTooSoonToShowMessageAfterLaunch` | SwrveSDK/src/main/java/com/swrve/sdk/messaging/SwrveBaseCampaign.java:226-228 | true exactly when now is strictly before the launch time |
| `Campaigns.Campaign.IsTooSoonToShowMessageAfterDelay` | SwrveSDK/src/main/java/com/swrve/sdk/messaging/SwrveBaseCampaign.java:230-232 | true exactly when a cooldown deadline is set and now is strictly before it |
| `Campaigns.Campaign.LogAndAddReason` | SwrveSDK/src/main/java/com/swrve/sdk/messaging/SwrveBaseCampaign.java:234-239 | with a map, the reason is put under the campaign id; with none, nothing changes |
| `Campaigns.Campaign.CheckForStartAndEndDate` | SwrveSDK/src/main/java/com/swrve/sdk/messaging/SwrveBaseCampaign.java:299-309 | true exactly inside the window; outside it the not-started or finished reason is put under the id |
| `Campaigns.Campaign.CheckCampaignLimits` | SwrveSDK/src/main/java/com/swrve/sdk/messaging/SwrveBaseCampaign.java:311-343 | true exactly when `Decide` says eligible, with the controller's auto-show event; the map gains the verdict's reason under the id when blocked and is unchanged otherwise; the saved state is unchanged |
| `Campaigns.Campaign.SetNext` | SwrveSDK/src/main/java/com/swrve/sdk/messaging/SwrveBaseCampaign.java:144-146 | only the round-robin cursor changes |
| `Campaigns.Campaign.SetImpressions` | SwrveSDK/src/main/java/com/swrve/sdk/messaging/SwrveBaseCampaign.java:178-180 | only the impression count changes |
| `Campaigns.Campaign.SetMaxImpressions` | SwrveSDK/src/main/java/com/swrve/sdk/messaging/SwrveBaseCampaign.java:189-191 | only the cap changes |
| `Campaigns.Campaign.SetTriggers` | SwrveSDK/src/main/java/com/swrve/sdk/messaging/SwrveBaseCampaign.java:155-157 | only the trigger set changes; it may become absent (null) |
| `Campaigns.Campaign.SetStatus` | SwrveSDK/src/main/java/com/swrve/sdk/messaging/SwrveBaseCampaign.java:350-352 | only the status changes |
| `Campaigns.Campaign.SetSaveableState` | SwrveSDK/src/main/java/com/swrve/sdk/messaging/SwrveBaseCampaign.java:392-394 | the campaign now uses the given state object |
| `Campaigns.Campaign.IncrementImpressions` | SwrveSDK/src/main/java/com/swrve/sdk/messaging/SwrveBaseCampaign.java:286-288 | the impression count goes up by exactly one; nothing else changes |
| `Campaigns.Campaign.SetMessageMinDelayThrottle` | SwrveSDK/src/main/java/com/swrve/sdk/messaging/SwrveBaseCampaign.java:293-297 | the cooldown deadline becomes now + min delay; the host is notified once; nothing else in the state changes |
| `Campaigns.Campaign.MessageWasShownToUser` | SwrveSDK/src/main/java/com/swrve/sdk/messaging/SwrveBaseCampaign.java:366-370 | status Seen, one more impression, cooldown until now + min delay, cursor kept, host notified once; the new state is `AfterShown` of the old one |

## Left out

- Logging through `SwrveLogger` is not modelled. Only the entries placed in the reasons map are kept.
- The reason texts are abstract tags (`Reason`). The `HH:mm:ss ZZZZ` formatting of wait-until times depends on locale and time zone.
- `CaseFold.ToLower` and `CaseFold.EqualsIgnoreCase` fold only the ASCII letters A-Z. Java's full Unicode case mapping is not modelled. Outside ASCII the source's two case notions disagree (event "ſ", U+017F, against stored trigger "s": `equalsIgnoreCase` says true, the lookup of `toLowerCase(Locale.US)` says false), so the if-and-only-if of `Throttle.HasElementForEvent` and `ThrottleLemmas.DecideIgnoresEventCase` hold of the ASCII model only.
- JSON parsing and org.json's coercions are not modelled. A member the getter rejects is the abstract `Malformed`.
- `message_center` is what `optBoolean` returns. A missing value, or one `optBoolean` cannot read as a boolean, gives false.
- `Campaigns.Campaign.IncrementImpressions`: does not model the 32-bit wrap-around of `impressions++` at 2^31 - 1. A campaign would need two billion displays to reach it.
- `Throttle.AddSeconds`: integers are unbounded. Overflow of `long` millisecond times and of `int` limits is not modelled.
- `Campaigns.Campaign.AssignCampaignTriggers`: requires a trigger set. The source would throw a null-pointer exception if it had none. Loading always starts from an empty set.
- Null arguments are not modelled. A null event name or null dates would throw a null-pointer exception in the source.
- The host controller's global throttle is reduced to a count of notifications. It lives behind `setMessageMinDelayThrottle()` in a class that is not part of this model.
- `SwrveCampaignState` is not part of this model. Its fresh values (cursor 0, no impressions, Unseen, no cooldown deadline) are assumed. Its persistence and serialization are left out, with no round-trip claim.
- `supportsOrientation` and `areAssetsReady` are abstract in the source and have no body.
- `SwrveSDK.java` (singleton bootstrap over an Android `Context`) and the Converser `TextView` widget are not part of this model.
- Aliasing of the saved state is kept: `SetSaveableState` swaps the object. Sharing one state object between two campaigns is allowed, as in the source, but no property is stated about it.
