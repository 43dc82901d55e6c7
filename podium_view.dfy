/**
 * The podium step of the vote flow: the ordered validation of the selected
 * brands and the submission, which moves the flow to the share step or
 * shows a "Voting Failed" alert.
 */
module PodiumStep {
  import opened Domain
  import opened Cache
  import opened VoteMutation

  /** A bottom-sheet alert: its title and its text. */
  datatype Alert = Alert(title: string, content: string)

  const InvalidSelectionAlert := Alert("Invalid Selection", "Please select exactly 3 brands for your podium.")
  const DuplicateSelectionAlert := Alert("Duplicate Selection", "Please select 3 different brands for your podium.")
  const AlreadyVotedAlert := Alert("Already Voted", "You have already voted today. Come back tomorrow to vote again!")
  const DefaultFailureText := "Failed to submit your vote. Please try again."

  /** `validateBrands`: `Valid` is `true`; `Invalid` is `false` together with the one alert it opens. */
  datatype Validation = Valid | Invalid(alert: Alert)

  function BrandIds(brands: seq<Brand>): (ids: seq<int>)
    ensures |ids| == |brands| && forall i :: 0 <= i < |brands| ==> ids[i] == brands[i].id
  {
    seq(|brands|, i requires 0 <= i < |brands| => brands[i].id)
  }

  /**
   * The checks in their order: the count, then distinct ids, then the
   * cached `hasVotedToday` flag.
   */
  function ValidateBrands(brands: seq<Brand>, auth: Option<User>): (v: Validation)
    ensures v == Valid <==> |brands| == 3 && Distinct(BrandIds(brands)) && !HasVotedToday(auth)
    ensures v == Invalid(InvalidSelectionAlert) <==> |brands| != 3
    ensures v == Invalid(DuplicateSelectionAlert) <==> |brands| == 3 && !Distinct(BrandIds(brands))
    ensures v == Invalid(AlreadyVotedAlert) <==> |brands| == 3 && Distinct(BrandIds(brands)) && HasVotedToday(auth)
  {
    if |brands| != 3 then Invalid(InvalidSelectionAlert)
    else
      UniqueCountThree(BrandIds(brands));
      if UniqueCount(BrandIds(brands)) != 3 then Invalid(DuplicateSelectionAlert)
      else if HasVotedToday(auth) then Invalid(AlreadyVotedAlert)
      else Valid
  }

  /** The `ids` of the vote request: first, second and third place in index order. */
  function SubmittedIds(brands: seq<Brand>): (ids: seq<int>)
    requires |brands| >= 3
    ensures |ids| == 3 && forall i :: 0 <= i < 3 ==> ids[i] == brands[i].id
  {
    [brands[0].id, brands[1].id, brands[2].id]
  }

  /** The text of the "Voting Failed" alert: the error's message, or the default when it is empty. */
  function VotingFailedAlert(message: string): (a: Alert)
    ensures a.title == "Voting Failed"
    ensures message != "" ==> a.content == message
    ensures message == "" ==> a.content == DefaultFailureText
  {
    Alert("Voting Failed", if message != "" then message else DefaultFailureText)
  }

  /**
   * A selection the page accepts passes the mutation hook's own check, and
   * the ids it sends are the selection's ids in the same order.
   */
  lemma AcceptedSelectionPassesHook(brands: seq<Brand>, auth: Option<User>)
    requires ValidateBrands(brands, auth) == Valid
    ensures SubmittedIds(brands) == BrandIds(brands)
    ensures MutationFn(Some(SubmittedIds(brands))) == Success(SubmittedIds(brands))
  {
    assert SubmittedIds(brands) == BrandIds(brands);
  }

  /**
   * A selection of three with a repeated id, wherever the repeat sits, by a
   * user who already voted reports the duplicate, not the earlier vote.
   */
  lemma DuplicateReportedBeforeAlreadyVoted(brands: seq<Brand>, auth: Option<User>)
    requires |brands| == 3 && !Distinct(BrandIds(brands)) && HasVotedToday(auth)
    ensures ValidateBrands(brands, auth) == Invalid(DuplicateSelectionAlert)
  {
  }

  /** What the page does, in order: alerts, haptic pulses and moves of the flow. */
  datatype PodiumEvent = AlertOpened(alert: Alert) | Haptic | NavigatedToShare(brands: seq<Brand>, voteId: string)

  class PodiumView {
    const mutation: VoteBrandsMutation
    var events: seq<PodiumEvent>

    constructor(mutation: VoteBrandsMutation)
      ensures this.mutation == mutation && events == []
    {
      this.mutation := mutation;
      events := [];
    }

    /**
     * `handleSubmitVote(brands)`. `auth` is the cached user and `server` the
     * backend's answer to the vote request. A rejected selection opens its
     * alert and returns before any haptic, request or cache change; there is
     * no guard against a second submission.
     */
    method HandleSubmitVote(brands: seq<Brand>, auth: Option<User>, server: Result<VoteResponse, string>)
      modifies this, mutation, mutation.cache
      ensures ValidateBrands(brands, auth).Invalid? ==>
        events == old(events) + [AlertOpened(ValidateBrands(brands, auth).alert)] &&
        mutation.requests == old(mutation.requests) &&
        mutation.cache.entries == old(mutation.cache.entries)
      ensures ValidateBrands(brands, auth).Valid? ==>
        |brands| == 3 && mutation.requests == old(mutation.requests) + [SubmittedIds(brands)]
      ensures ValidateBrands(brands, auth).Valid? && server.Success? ==>
        events == old(events) + [Haptic, NavigatedToShare(brands, server.value.id), Haptic] &&
        mutation.cache.entries == Invalidate(VoteInvalidations(old(mutation.cache.entries)), AuthKey)
                               == VoteInvalidations(old(mutation.cache.entries))
      ensures ValidateBrands(brands, auth).Valid? && server.Failure? ==>
        events == old(events) + [Haptic, Haptic, AlertOpened(VotingFailedAlert(server.error))] &&
        mutation.cache.entries == old(mutation.cache.entries)
    {
      var v := ValidateBrands(brands, auth);
      if v.Invalid? {
        events := events + [AlertOpened(v.alert)];
        return;
      }
      events := events + [Haptic];
      AcceptedSelectionPassesHook(brands, auth);
      var r := mutation.Mutate(Some(SubmittedIds(brands)), server);
      if r.Success? {
        mutation.cache.InvalidateQueries(AuthKey);
        AuthInvalidatedAgain(old(mutation.cache.entries));
        events := events + [NavigatedToShare(brands, r.value.id), Haptic];
      } else {
        events := events + [Haptic, AlertOpened(VotingFailedAlert(r.error))];
      }
    }
  }
}
