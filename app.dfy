/** The public site's shell: whether the page is the admin site, which
    screen it shows, and the navigation handlers between the home page, the
    booking form, the calendar and the success screen. */
module App {
  import opened Types
  import opened Strings
  import opened Login

  /** The sections the header and the handlers switch between. */
  datatype Section = HomeSection | BookingSection | CalendarSection

  /** What the page shows. */
  datatype Screen = AdminGate | Success | HomePage | BookingPage | CalendarPage

  /** `URLSearchParams.get(key)`: the value of the first parameter with that
      name. */
  function FirstValue(params: seq<(string, string)>, key: string): (r: Option<string>)
    ensures r.Some? ==> (key, r.value) in params
    ensures r.None? <==> forall i :: 0 <= i < |params| ==> params[i].0 != key
  {
    if |params| == 0 then None
    else if params[0].0 == key then Some(params[0].1)
    else FirstValue(params[1..], key)
  }

  /** `get` answers `v` exactly when the first parameter named `key` holds
      `v`; later duplicates are ignored. */
  lemma {:induction false} FirstValueIff(params: seq<(string, string)>, key: string, v: string)
    ensures FirstValue(params, key) == Some(v) <==>
      exists i :: 0 <= i < |params| && params[i] == (key, v) && forall j :: 0 <= j < i ==> params[j].0 != key
  {
    if |params| > 0 && params[0].0 != key {
      FirstValueIff(params[1..], key, v);
      if FirstValue(params, key) == Some(v) {
        var i :| 0 <= i < |params| - 1 && params[1..][i] == (key, v)
                 && forall j :: 0 <= j < i ==> params[1..][j].0 != key;
        assert params[i + 1] == (key, v);
        forall j | 0 <= j < i + 1 ensures params[j].0 != key {
          if j > 0 {
            assert params[1..][j - 1] == params[j];
          }
        }
      }
      if exists i :: 0 <= i < |params| && params[i] == (key, v) && forall j :: 0 <= j < i ==> params[j].0 != key {
        var i :| 0 <= i < |params| && params[i] == (key, v) && forall j :: 0 <= j < i ==> params[j].0 != key;
        assert i > 0;
        assert params[1..][i - 1] == (key, v);
        forall j | 0 <= j < i - 1 ensures params[1..][j].0 != key {
          assert params[1..][j] == params[j + 1];
        }
      }
    } else if |params| > 0 {
      if exists i :: 0 <= i < |params| && params[i] == (key, v) && forall j :: 0 <= j < i ==> params[j].0 != key {
        var i :| 0 <= i < |params| && params[i] == (key, v) && forall j :: 0 <= j < i ==> params[j].0 != key;
        assert i == 0;
      }
    }
  }

  /** `isAdminSite()`: an `admin.` host, `admin=true` in the query, or the
      `#admin` hash. The query arrives already split into name and value
      pairs. On a host without `admin.` and without the hash, the query
      decides: the first `admin` parameter must read `true`. */
  predicate IsAdminSite(hostname: string, params: seq<(string, string)>, hash: string)
    ensures !StartsWith(hostname, AdminPrefix) && hash != "#admin" ==>
      (IsAdminSite(hostname, params, hash) <==>
        exists i :: 0 <= i < |params| && params[i] == ("admin", "true")
          && forall j :: 0 <= j < i ==> params[j].0 != "admin")
  {
    FirstValueIff(params, "admin", "true");
    StartsWith(hostname, AdminPrefix) || FirstValue(params, "admin") == Some("true") || hash == "#admin"
  }

  /** The render: the admin gate first, then the success screen, then the
      active section. */
  function ScreenOf(adminSite: bool, showSuccess: bool, section: Section): (s: Screen)
    ensures adminSite <==> s == AdminGate
    ensures !adminSite ==> (showSuccess <==> s == Success)
    ensures !adminSite && !showSuccess ==>
      s == match section case HomeSection => HomePage case BookingSection => BookingPage case CalendarSection => CalendarPage
  {
    if adminSite then AdminGate
    else if showSuccess then Success
    else match section
      case HomeSection => HomePage
      case BookingSection => BookingPage
      case CalendarSection => CalendarPage
  }

  /** The link back from the admin gate leads off the admin site: the main
      domain, without an `admin.` of its own, a query or a hash, is not
      taken for it. */
  lemma MainSiteLeavesAdmin(domain: string, origin: string)
    requires !StartsWith(domain, AdminPrefix)
    ensures IsAdminSite(AdminPrefix + domain, [], "")
    ensures MainSite(AdminPrefix + domain, origin) == "https://" + domain
    ensures !IsAdminSite(domain, [], "")
  {
    var h := AdminPrefix + domain;
    assert h[..|AdminPrefix|] == AdminPrefix;
    MainSiteOfAdminHost(domain, origin);
  }

  class AppShell {
    var section: Section
    var showSuccess: bool

    constructor ()
      ensures section == HomeSection && !showSuccess
    {
      section := HomeSection;
      showSuccess := false;
    }

    /** The screen for the page's address. */
    function Shown(hostname: string, params: seq<(string, string)>, hash: string): Screen
      reads this
    {
      ScreenOf(IsAdminSite(hostname, params, hash), showSuccess, section)
    }

    /** `handleBookingSubmit`: the form was sent. */
    method HandleBookingSubmit()
      modifies this`showSuccess
      ensures showSuccess
    {
      showSuccess := true;
    }

    /** `handleBookNow`. */
    method HandleBookNow()
      modifies this`section, this`showSuccess
      ensures section == BookingSection && !showSuccess
    {
      section := BookingSection;
      showSuccess := false;
    }

    /** `handleBackToHome`. */
    method HandleBackToHome()
      modifies this`section, this`showSuccess
      ensures section == HomeSection && !showSuccess
    {
      section := HomeSection;
      showSuccess := false;
    }

    /** `handleViewCalendar`. */
    method HandleViewCalendar()
      modifies this`section, this`showSuccess
      ensures section == CalendarSection && !showSuccess
    {
      section := CalendarSection;
      showSuccess := false;
    }

    /** The header's section buttons set the section alone: while the
        success screen is up they change nothing visible. */
    method SetSection(s: Section)
      modifies this`section
      ensures section == s && showSuccess == old(showSuccess)
    {
      section := s;
    }
  }
}
