/** The mobile admin app's settings screen: the same password change as
    the web page, with an empty-field check first, a secure-store read
    that falls back to the default password when it fails, a write that
    can fail, and fields cleared only once the success alert is
    acknowledged. */
module MobileSettings {
  import opened Types
  import opened Strings
  import opened Settings

  /** `getStoredPassword()`: a failed read counts as no stored password. */
  function StoredPassword(stored: Option<string>, readOk: bool): (p: string)
    ensures !readOk ==> p == DefaultPassword
    ensures readOk ==> p == EffectivePassword(stored)
  {
    if readOk then EffectivePassword(stored) else DefaultPassword
  }

  /** The checks of the screen in their order, up to the write. */
  function MobileCheck(effective: string, current: string, newPassword: string, confirm: string): (r: Outcome)
    ensures r != WriteFailed
    ensures r == EmptyFields <==> current == "" || newPassword == "" || confirm == ""
  {
    if current == "" || newPassword == "" || confirm == "" then EmptyFields
    else WebCheck(effective, current, newPassword, confirm)
  }

  /** Whenever the web form's button is enabled the two apps decide alike:
      the empty-field check only matters where the web page disables
      submission. */
  lemma SameChecksWhenFilled(isChanging: bool, effective: string, current: string, newPassword: string, confirm: string)
    requires SubmitEnabled(isChanging, current, newPassword, confirm)
    ensures MobileCheck(effective, current, newPassword, confirm) == WebCheck(effective, current, newPassword, confirm)
  {
  }

  /** An empty field is reported before the stored password is even read,
      so it is reported whatever is stored. */
  lemma EmptyFieldsFirst(e1: string, e2: string, current: string, newPassword: string, confirm: string)
    requires current == "" || newPassword == "" || confirm == ""
    ensures MobileCheck(e1, current, newPassword, confirm) == MobileCheck(e2, current, newPassword, confirm) == EmptyFields
  {
  }

  const EmptyFieldsText := "Por favor preencha todos os campos."
  const WriteFailedText := "Erro ao alterar palavra-passe. Tente novamente."

  /** The alert each outcome shows. */
  function AlertText(r: Outcome): string {
    match r
    case EmptyFields => EmptyFieldsText
    case WrongCurrent => WrongCurrentText
    case TooShort => TooShortText
    case Mismatch => MismatchText
    case WriteFailed => WriteFailedText
    case Changed => ChangedText
  }

  class SettingsScreen {
    const passwords: PasswordStore
    var current: string
    var newPassword: string
    var confirm: string

    constructor (passwords: PasswordStore)
      ensures this.passwords == passwords
      ensures current == "" && newPassword == "" && confirm == ""
    {
      this.passwords := passwords;
      current := "";
      newPassword := "";
      confirm := "";
    }

    /** `handlePasswordChange()`: `readOk` and `writeOk` say whether the
        secure store answers, `acknowledged` whether the success alert's OK
        button is pressed. Nothing is written unless every check passes;
        the fields are left as typed unless the success is acknowledged. */
    method HandlePasswordChange(readOk: bool, writeOk: bool, acknowledged: bool) returns (outcome: Outcome)
      modifies passwords`stored, this`current, this`newPassword, this`confirm
      ensures var checked := MobileCheck(StoredPassword(old(passwords.stored), readOk), old(current), old(newPassword), old(confirm));
        outcome == if checked == Changed && !writeOk then WriteFailed else checked
      ensures outcome == Changed ==> passwords.stored == Some(old(newPassword))
      ensures outcome != Changed ==> passwords.stored == old(passwords.stored)
      ensures outcome == Changed && acknowledged ==> current == "" && newPassword == "" && confirm == ""
      ensures !(outcome == Changed && acknowledged) ==>
        current == old(current) && newPassword == old(newPassword) && confirm == old(confirm)
    {
      if current == "" || newPassword == "" || confirm == "" {
        return EmptyFields;
      }
      var storedPassword := StoredPassword(passwords.stored, readOk);
      if current != storedPassword {
        return WrongCurrent;
      }
      if Utf16Length(newPassword) < MinLength {
        return TooShort;
      }
      if newPassword != confirm {
        return Mismatch;
      }
      if !writeOk {
        return WriteFailed;
      }
      passwords.stored := Some(newPassword);
      if acknowledged {
        current := "";
        newPassword := "";
        confirm := "";
      }
      outcome := Changed;
    }
  }

  /** With the secure store unreadable, the default password changes the
      password even when another one is stored. */
  lemma DefaultWorksWhenUnreadable(stored: Option<string>, newPassword: string)
    requires Utf16Length(newPassword) >= MinLength
    ensures MobileCheck(StoredPassword(stored, false), DefaultPassword, newPassword, newPassword) == Changed
  {
  }
}
