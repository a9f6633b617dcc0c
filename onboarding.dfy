/** The dashboard home page: the session gate that either redirects to the
    login page or authorises the page, and the onboarding modal shown until
    the user's metadata records that onboarding was completed. */
module Onboarding {
  import opened Common
  import opened Session

  const Platforms: seq<string> := ["whatsapp", "snapchat", "instagram", "tiktok", "telegram", "autre"]
  const Focuses: seq<string> := ["stock", "clients", "colis", "tout"]

  /** `metadata?.onboarding_completed !== true`: anything but the boolean
      `true` (missing, `false`, the text "true", ...) asks for onboarding. */
  function NeedsOnboarding(m: Metadata): (needed: bool)
    ensures m.onboardingCompleted.None? ==> needed
    ensures !needed ==> m.onboardingCompleted == Some(MetaBool(true))
  {
    m.onboardingCompleted != Some(MetaBool(true))
  }

  /** The gate is strict: only the boolean `true` passes it. */
  lemma OnlyStrictTrueSkipsOnboarding(m: Metadata)
    ensures !NeedsOnboarding(m) <==> m.onboardingCompleted.Some? && m.onboardingCompleted.value == MetaBool(true)
    ensures m.onboardingCompleted == Some(MetaText("true")) ==> NeedsOnboarding(m)
    ensures m.onboardingCompleted == Some(MetaBool(false)) ==> NeedsOnboarding(m)
  {
  }

  /** The metadata write that completes onboarding. */
  datatype MetadataUpdate = MetadataUpdate(onboardingCompleted: bool, salesPlatform: string, mainFocus: string)

  /** `updateUser({ data })` merges the written keys into the stored
      metadata and keeps the others. */
  function ApplyUpdate(m: Metadata, u: MetadataUpdate): (m': Metadata)
    ensures m'.fullName == m.fullName
    ensures m'.onboardingCompleted == Some(MetaBool(u.onboardingCompleted))
    ensures m'.salesPlatform == Some(MetaText(u.salesPlatform)) && m'.mainFocus == Some(MetaText(u.mainFocus))
  {
    Metadata(m.fullName, Some(MetaBool(u.onboardingCompleted)), Some(MetaText(u.salesPlatform)), Some(MetaText(u.mainFocus)))
  }

  /** What the page shows. */
  datatype View = Loading | Dashboard(onboardingModal: bool)

  class DashboardPage {
    var isAuthorized: bool
    var showOnboarding: bool
    var userName: string
    var platform: string
    var focus: string
    var savingOnboarding: bool
    /** Set once the page has sent the browser to the login page. */
    var redirectedToLogin: bool
    /** The metadata writes sent to the identity provider, oldest first. */
    var issued: seq<MetadataUpdate>

    constructor ()
      ensures !isAuthorized && !showOnboarding && userName == "" && platform == "" && focus == ""
      ensures !savingOnboarding && !redirectedToLogin && issued == []
    {
      isAuthorized, showOnboarding, userName, platform, focus := false, false, "", "", "";
      savingOnboarding, redirectedToLogin, issued := false, false, [];
    }

    function CurrentView(): (v: View)
      reads this
      ensures v == Loading <==> !isAuthorized
      ensures v.Dashboard? ==> v.onboardingModal == showOnboarding
    {
      if !isAuthorized then Loading else Dashboard(showOnboarding)
    }

    /** `isFormComplete`. */
    function IsFormComplete(): (complete: bool)
      reads this
      ensures platform in Platforms && focus in Focuses ==> complete
      ensures platform == "" || focus == "" ==> !complete
    {
      platform != "" && focus != ""
    }

    /** The modal's submit button is enabled. */
    function SubmitEnabled(): (enabled: bool)
      reads this
      ensures savingOnboarding ==> !enabled
      ensures enabled <==> !savingOnboarding && IsFormComplete()
    {
      !savingOnboarding && IsFormComplete()
    }

    /** `checkAuth`: without a session the page redirects and stays on the
        loading view; with one it takes the display name, opens the
        onboarding modal when the metadata asks for it, and authorises. */
    method CheckAuth(session: Option<Session>)
      modifies this
      ensures session.None? ==>
        && redirectedToLogin && isAuthorized == old(isAuthorized)
        && userName == old(userName) && showOnboarding == old(showOnboarding)
      ensures session.Some? ==>
        && isAuthorized && userName == DisplayName(session.value.metadata)
        && redirectedToLogin == old(redirectedToLogin)
        && showOnboarding == (old(showOnboarding) || NeedsOnboarding(session.value.metadata))
      ensures platform == old(platform) && focus == old(focus)
      ensures savingOnboarding == old(savingOnboarding) && issued == old(issued)
    {
      if session.None? {
        redirectedToLogin := true;
      } else {
        var metadata := session.value.metadata;
        userName := DisplayName(metadata);
        if NeedsOnboarding(metadata) {
          showOnboarding := true;
        }
        isAuthorized := true;
      }
    }

    /** A click on one of the platform buttons. */
    method SelectPlatform(k: int)
      requires 0 <= k < |Platforms|
      modifies this
      ensures platform == Platforms[k] && platform != ""
      ensures focus == old(focus) && savingOnboarding == old(savingOnboarding) && showOnboarding == old(showOnboarding)
      ensures isAuthorized == old(isAuthorized) && userName == old(userName) && issued == old(issued)
      ensures redirectedToLogin == old(redirectedToLogin)
    {
      platform := Platforms[k];
    }

    /** A click on one of the focus buttons. */
    method SelectFocus(k: int)
      requires 0 <= k < |Focuses|
      modifies this
      ensures focus == Focuses[k] && focus != ""
      ensures platform == old(platform) && savingOnboarding == old(savingOnboarding) && showOnboarding == old(showOnboarding)
      ensures isAuthorized == old(isAuthorized) && userName == old(userName) && issued == old(issued)
      ensures redirectedToLogin == old(redirectedToLogin)
    {
      focus := Focuses[k];
    }

    /** The first half of `handleCompleteOnboarding`: saving starts and the
        metadata write is sent. */
    method StartCompleteOnboarding()
      modifies this
      ensures savingOnboarding && !SubmitEnabled()
      ensures issued == old(issued) + [MetadataUpdate(true, platform, focus)]
      ensures platform == old(platform) && focus == old(focus) && showOnboarding == old(showOnboarding)
      ensures isAuthorized == old(isAuthorized) && userName == old(userName)
      ensures redirectedToLogin == old(redirectedToLogin)
    {
      savingOnboarding := true;
      issued := issued + [MetadataUpdate(true, platform, focus)];
    }

    /** The second half, once the write has returned: the modal closes and
        saving ends. */
    method FinishCompleteOnboarding()
      modifies this
      ensures !showOnboarding && !savingOnboarding
      ensures platform == old(platform) && focus == old(focus) && issued == old(issued)
      ensures isAuthorized == old(isAuthorized) && userName == old(userName)
      ensures redirectedToLogin == old(redirectedToLogin)
    {
      showOnboarding := false;
      savingOnboarding := false;
    }
  }

  /** Choosing one platform and one focus while nothing is being saved
      enables the modal's submit button. */
  method ChoosingBothEnablesSubmit(page: DashboardPage, k: int, j: int)
    requires 0 <= k < |Platforms| && 0 <= j < |Focuses| && !page.savingOnboarding
    modifies page
    ensures page.platform == Platforms[k] && page.focus == Focuses[j]
    ensures page.IsFormComplete() && page.SubmitEnabled()
  {
    page.SelectPlatform(k);
    page.SelectFocus(j);
  }

  /** Without a session the freshly mounted page never leaves the loading
      view. */
  method NoSessionStaysLoading() returns (page: DashboardPage)
    ensures page.redirectedToLogin && page.CurrentView() == Loading
  {
    page := new DashboardPage();
    page.CheckAuth(None);
  }

  /** Completing onboarding writes metadata that passes the gate, so the
      modal is not shown again on the next visit, and the chosen platform
      and focus are stored. */
  method CompleteThenRevisit(page: DashboardPage, stored: Metadata, userId: string) returns (next: DashboardPage)
    requires page.isAuthorized && page.issued == []
    modifies page
    ensures page.issued == [MetadataUpdate(true, old(page.platform), old(page.focus))]
    ensures var m := ApplyUpdate(stored, page.issued[0]);
      m.salesPlatform == Some(MetaText(old(page.platform))) && m.mainFocus == Some(MetaText(old(page.focus)))
    ensures next.isAuthorized && next.CurrentView() == Dashboard(false)
  {
    page.StartCompleteOnboarding();
    page.FinishCompleteOnboarding();
    next := new DashboardPage();
    next.CheckAuth(Some(Session(userId, ApplyUpdate(stored, page.issued[0]))));
  }
}
