/**
 * The share step of the vote flow: the podium text and embed handed to the
 * cast composer, the share-frame request, the success path and the skip
 * button.
 */
module ShareStep {
  import opened Domain
  import opened Decimal

  const Gold := "\U{1F947}"
  const Silver := "\U{1F948}"
  const Bronze := "\U{1F949}"
  const ShareHeader := "I just created my /brnd podium of today:\n\n"
  const PodiumUrlBase := "https://brnd.lat/podium/"
  const VotePath := "/vote"

  /** A brand's display handle: its profile when that is truthy, otherwise its channel (possibly absent). */
  function Handle(b: Brand): (h: Option<string>)
    ensures Truthy(b.profile) ==> h == b.profile
    ensures !Truthy(b.profile) ==> h == b.channel
  {
    if Truthy(b.profile) then b.profile else b.channel
  }

  /** A value interpolated into a template literal: an absent one prints as "undefined". */
  function Interpolated(s: Option<string>): string
  {
    if s.Some? then s.value else "undefined"
  }

  /** One podium row as `places` lists it: the medal and the handle. */
  datatype Place = Place(icon: string, name: Option<string>)

  /** `places`: the medals over `brands[1]`, `brands[0]` and `brands[2]`, in that order. */
  function Places(brands: seq<Brand>): (ps: seq<Place>)
    requires |brands| >= 3
    ensures |ps| == 3
    ensures ps[0] == Place(Gold, Handle(brands[1]))
    ensures ps[1] == Place(Silver, Handle(brands[0]))
    ensures ps[2] == Place(Bronze, Handle(brands[2]))
  {
    [Place(Gold, Handle(brands[1])), Place(Silver, Handle(brands[0])), Place(Bronze, Handle(brands[2]))]
  }

  /** One line of the cast text: the medal, the brand's name, " - " and its handle. */
  function ShareLine(medal: string, b: Brand): string
  {
    medal + b.name + " - " + Interpolated(Handle(b))
  }

  /** How a row of `places` reads when written as a cast line for the brand named `name`. */
  function PlaceLine(p: Place, name: string): string
  {
    p.icon + name + " - " + Interpolated(p.name)
  }

  /**
   * The text composed for the cast: the header, then line i carries the
   * medal and handle of `places[i]` with that brand's name, so the gold line
   * names `brands[1]`, the silver line `brands[0]` and the bronze line
   * `brands[2]`; the text and the on-screen list agree.
   */
  function ShareText(brands: seq<Brand>): (text: string)
    requires |brands| >= 3
    ensures var ps := Places(brands);
      text == ShareHeader + PlaceLine(ps[0], brands[1].name) + "\n"
                          + PlaceLine(ps[1], brands[0].name) + "\n"
                          + PlaceLine(ps[2], brands[2].name)
  {
    var ps := Places(brands);
    assert PlaceLine(ps[0], brands[1].name) == ShareLine(Gold, brands[1]);
    assert PlaceLine(ps[1], brands[0].name) == ShareLine(Silver, brands[0]);
    assert PlaceLine(ps[2], brands[2].name) == ShareLine(Bronze, brands[2]);
    ShareHeader + ShareLine(Gold, brands[1]) + "\n" + ShareLine(Silver, brands[0]) + "\n" + ShareLine(Bronze, brands[2])
  }

  /** The embed list: exactly the podium page of the current vote. */
  function Embeds(voteId: string): (e: seq<string>)
    ensures |e| == 1 && |e[0]| == |PodiumUrlBase| + |voteId| && e[0][..|PodiumUrlBase|] == PodiumUrlBase && e[0][|PodiumUrlBase|..] == voteId
  {
    [PodiumUrlBase + voteId]
  }

  /** Where a successful share navigates: `/vote/<seconds>?success` from `/vote`, else the same path with `?success`. */
  function SuccessPath(pathname: string, nowMs: nat): (p: string)
    ensures |p| >= |pathname| + 8 && p[..|pathname|] == pathname && p[|p| - 8..] == "?success"
    ensures pathname != VotePath ==> |p| == |pathname| + 8
    ensures pathname == VotePath ==> p[|pathname|] == '/' && |p| == |pathname| + 1 + |NatToString(nowMs / 1000)| + 8
  {
    if pathname == VotePath then pathname + "/" + NatToString(nowMs / 1000) + "?success"
    else pathname + "?success"
  }

  /** The seconds stamped in the `/vote` success path are the whole seconds of the clock reading. */
  lemma SuccessPathSeconds(nowMs: nat)
    ensures var p := SuccessPath(VotePath, nowMs);
      var digits := p[|VotePath| + 1..|p| - |"?success"|];
      IsDigits(digits) && ParseDecimal(digits) * 1000 <= nowMs < (ParseDecimal(digits) + 1) * 1000
  {
    var digits := NatToString(nowMs / 1000);
    var p := SuccessPath(VotePath, nowMs);
    assert p == VotePath + "/" + digits + "?success";
    assert p[|VotePath| + 1..|p| - |"?success"|] == digits;
    ParseNatToString(nowMs / 1000);
  }

  datatype Nav = Back | To(path: string)

  datatype Cast = Cast(text: string, embeds: seq<string>)

  /** What the share step does, in order: compose a cast, request the share frame, navigate. */
  datatype ShareEvent = ComposeCast(cast: Cast) | ShareFrameRequested | Navigated(nav: Nav)

  /** `handleClickSkip`: back when there is no vote id, home otherwise. */
  function SkipNavigation(voteId: string): (n: Nav)
    ensures n == Back <==> voteId == ""
    ensures n != Back ==> n == To("/")
  {
    if voteId == "" then Back else To("/")
  }

  class ShareView {
    const currentBrands: seq<Brand>
    const currentVoteId: string
    /** `location.pathname` while the view is shown. */
    const pathname: string
    var events: seq<ShareEvent>

    /** The view reads `currentBrands[0..2]` when it renders, so it is only shown with three brands. */
    constructor(brands: seq<Brand>, voteId: string, pathname: string)
      requires |brands| >= 3
      ensures currentBrands == brands && currentVoteId == voteId && this.pathname == pathname && events == []
    {
      currentBrands := brands;
      currentVoteId := voteId;
      this.pathname := pathname;
      events := [];
    }

    method HandleClickSkip()
      modifies this
      ensures events == old(events) + [Navigated(SkipNavigation(currentVoteId))]
    {
      events := events + [Navigated(SkipNavigation(currentVoteId))];
    }

    /**
     * `handleClickShare`. `composed` is whatever the composer returns (its
     * cast hash, if any) and is never looked at; `shareResult` is the share
     * frame response, None when the request fails. Only a truthy response
     * navigates.
     */
    method HandleClickShare(composed: Option<string>, shareResult: Option<bool>, nowMs: nat)
      requires |currentBrands| >= 3
      modifies this
      ensures events == old(events)
        + [ComposeCast(Cast(ShareText(currentBrands), Embeds(currentVoteId))), ShareFrameRequested]
        + (if shareResult == Some(true) then [Navigated(To(SuccessPath(pathname, nowMs)))] else [])
    {
      events := events + [ComposeCast(Cast(ShareText(currentBrands), Embeds(currentVoteId)))];
      events := events + [ShareFrameRequested];
      if shareResult == Some(true) {
        events := events + [Navigated(To(SuccessPath(pathname, nowMs)))];
      }
    }
  }
}
