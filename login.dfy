/** The web admin's login gate: a fixed user name, the password in force
    on this device, and the link back to the public site. */
module Login {
  import opened Types
  import opened Strings
  import opened Settings

  const AdminUser := "admin"
  const InvalidCredentials := "Credenciais inválidas. Tente novamente."
  const AdminPrefix := "admin."

  /** The credential test of `handleLogin`: the user must be `admin`, and
      an empty password never opens the gate. */
  predicate Accepts(username: string, password: string, stored: Option<string>)
    ensures Accepts(username, password, stored) ==> username == AdminUser && password != ""
  {
    username == AdminUser && password == EffectivePassword(stored)
  }

  /** Exactly one password opens the gate: the stored one, or the default
      while none (or an empty one) is stored. */
  lemma OnePassword(p1: string, p2: string, stored: Option<string>)
    requires Accepts(AdminUser, p1, stored) && Accepts(AdminUser, p2, stored)
    ensures p1 == p2
    ensures stored.Some? && stored.value != "" ==> p1 == stored.value
    ensures (stored.None? || stored.value == "") ==> p1 == DefaultPassword
  {
  }

  /** After a successful change on the settings page the new password
      opens the gate, and every other password, the old one included, no
      longer does. */
  lemma LoginAfterChange(effective: string, current: string, newPassword: string, confirm: string, other: string)
    requires WebCheck(effective, current, newPassword, confirm) == Changed
    ensures Accepts(AdminUser, newPassword, Some(newPassword))
    ensures other != newPassword ==> !Accepts(AdminUser, other, Some(newPassword))
  {
    ChangedPasswordInForce(effective, current, newPassword, confirm);
  }

  /** `goToMainSite()`: on a local host the page's origin; elsewhere
      `https://` and the host name with its first `admin.` removed. */
  function MainSite(hostname: string, origin: string): (url: string)
    ensures hostname == "localhost" || hostname == "127.0.0.1" ==> url == origin
    ensures hostname != "localhost" && hostname != "127.0.0.1" ==>
      url == "https://" + ReplaceFirst(hostname, AdminPrefix, "")
  {
    if hostname == "localhost" || hostname == "127.0.0.1" then origin
    else "https://" + ReplaceFirst(hostname, AdminPrefix, "")
  }

  /** The admin sub-domain leads back to its main domain. */
  lemma MainSiteOfAdminHost(domain: string, origin: string)
    ensures MainSite(AdminPrefix + domain, origin) == "https://" + domain
  {
    var h := AdminPrefix + domain;
    assert h[0] == 'a';
    ReplaceFirstOfPrefix(AdminPrefix, domain);
  }

  /** A host without `admin.` in it is kept as it is. */
  lemma MainSiteOfPlainHost(hostname: string, origin: string)
    requires hostname != "localhost" && hostname != "127.0.0.1"
    requires forall k :: 0 <= k <= |hostname| ==> !OccursAt(hostname, AdminPrefix, k)
    ensures MainSite(hostname, origin) == "https://" + hostname
  {
  }

  /** The removal is not anchored at the start: in a host such as
      `myadmin.example.com` the inner `admin.` is cut out too. */
  lemma MainSiteCutsInnerAdmin(pre: string, rest: string, origin: string)
    requires 'a' !in pre
    requires pre + AdminPrefix + rest != "localhost" && pre + AdminPrefix + rest != "127.0.0.1"
    ensures MainSite(pre + AdminPrefix + rest, origin) == "https://" + pre + rest
  {
    var h := pre + AdminPrefix + rest;
    assert AdminPrefix[0] == 'a';
    forall k | 0 <= k < |pre| ensures !OccursAt(h, AdminPrefix, k) {
      assert h[k] == pre[k] != 'a';
      assert k + |AdminPrefix| <= |h| ==> h[k..k + |AdminPrefix|][0] == h[k];
    }
    assert OccursAt(h, AdminPrefix, |pre|) by { assert h[|pre|..|pre| + |AdminPrefix|] == AdminPrefix; }
    assert ReplaceFirst(h, AdminPrefix, "") == h[..|pre|] + "" + h[|pre| + |AdminPrefix|..];
    assert h[..|pre|] == pre && h[|pre| + |AdminPrefix|..] == rest;
    assert "https://" + pre + "" + rest == "https://" + pre + rest;
  }

  class AdminLogin {
    const passwords: PasswordStore
    var username: string
    var password: string
    var error: string
    var authenticated: bool

    constructor (passwords: PasswordStore)
      ensures this.passwords == passwords
      ensures username == AdminUser && password == "" && error == "" && !authenticated
    {
      this.passwords := passwords;
      username := AdminUser;
      password := "";
      error := "";
      authenticated := false;
    }

    /** `handleLogin`: the right credentials authenticate and clear the
        error; wrong ones set the error and leave the gate as it was. */
    method HandleLogin()
      modifies this`authenticated, this`error
      ensures Accepts(username, password, passwords.stored) ==> authenticated && error == ""
      ensures !Accepts(username, password, passwords.stored) ==>
        authenticated == old(authenticated) && error == InvalidCredentials
    {
      var storedPassword := EffectivePassword(passwords.stored);
      if username == AdminUser && password == storedPassword {
        authenticated := true;
        error := "";
      } else {
        error := InvalidCredentials;
      }
    }

    /** `handleInputChange`: only the password input changes anything, and
        it also clears the error; the user name stays fixed. */
    method HandleInputChange(name: string, value: string)
      modifies this`password, this`error
      ensures name == "password" ==> password == value && error == ""
      ensures name != "password" ==> password == old(password) && error == old(error)
    {
      if name == "password" {
        password := value;
        if error != "" {
          error := "";
        }
      }
    }

    /** `handleLogout`: back to the initial state of the form. */
    method HandleLogout()
      modifies this`authenticated, this`username, this`password, this`error
      ensures !authenticated && username == AdminUser && password == "" && error == ""
    {
      authenticated := false;
      username := AdminUser;
      password := "";
      error := "";
    }
  }
}
