/** The web admin's settings page: the stored admin password, with its
    built-in default, and the password change form whose checks run in a
    fixed order and return before anything is written. */
module Settings {
  import opened Types
  import opened Strings

  /** The password that works while none is stored. */
  const DefaultPassword := "cachopos"

  /** The shortest new password accepted, counted in UTF-16 code units. */
  const MinLength := 4

  /** The `admin_password` entry of a device's storage. */
  class PasswordStore {
    var stored: Option<string>

    constructor (stored: Option<string>)
      ensures this.stored == stored
    {
      this.stored := stored;
    }
  }

  /** `getItem('admin_password') || 'cachopos'`: an empty stored value is as
      good as none. */
  function EffectivePassword(stored: Option<string>): (p: string)
    ensures p != ""
    ensures stored.Some? && stored.value != "" ==> p == stored.value
    ensures stored.None? || stored.value == "" ==> p == DefaultPassword
  {
    if stored.Some? && stored.value != "" then stored.value else DefaultPassword
  }

  /** Where a password change ends: the first check that fails, or the
      write. */
  datatype Outcome = EmptyFields | WrongCurrent | TooShort | Mismatch | WriteFailed | Changed

  const WrongCurrentText := "Palavra-passe atual incorreta."
  const TooShortText := "A nova palavra-passe deve ter pelo menos 4 caracteres."
  const MismatchText := "A confirmação da palavra-passe não coincide."
  const ChangedText := "Palavra-passe alterada com sucesso!"

  /** The checks of the web form in their order; `effective` is the password
      in force. */
  function WebCheck(effective: string, current: string, newPassword: string, confirm: string): (r: Outcome)
    ensures r != EmptyFields && r != WriteFailed
    ensures r == Changed <==> current == effective && Utf16Length(newPassword) >= MinLength && newPassword == confirm
  {
    if current != effective then WrongCurrent
    else if Utf16Length(newPassword) < MinLength then TooShort
    else if newPassword != confirm then Mismatch
    else Changed
  }

  /** The submit button is enabled only when no change is under way and all
      three fields are filled. */
  predicate SubmitEnabled(isChanging: bool, current: string, newPassword: string, confirm: string) {
    !isChanging && current != "" && newPassword != "" && confirm != ""
  }

  /** An empty current password never matches, so the form can only change
      the password when the right one is typed. */
  lemma EmptyCurrentIsWrong(stored: Option<string>, newPassword: string, confirm: string)
    ensures WebCheck(EffectivePassword(stored), "", newPassword, confirm) == WrongCurrent
  {
  }

  /** A new password that passes the checks is never empty, so once stored
      it is the password in force. */
  lemma ChangedPasswordInForce(effective: string, current: string, newPassword: string, confirm: string)
    requires WebCheck(effective, current, newPassword, confirm) == Changed
    ensures EffectivePassword(Some(newPassword)) == newPassword
  {
  }

  /** A feedback banner: success or error, with its text. */
  datatype Notice = Notice(success: bool, text: string)

  /** The banner a finished check leaves. */
  function NoticeOf(r: Outcome): Notice {
    match r
    case Changed => Notice(true, ChangedText)
    case WrongCurrent => Notice(false, WrongCurrentText)
    case TooShort => Notice(false, TooShortText)
    case _ => Notice(false, MismatchText)
  }

  class SettingsForm {
    const passwords: PasswordStore
    var current: string
    var newPassword: string
    var confirm: string
    var message: Option<Notice>

    constructor (passwords: PasswordStore)
      ensures this.passwords == passwords
      ensures current == "" && newPassword == "" && confirm == "" && message == None
    {
      this.passwords := passwords;
      current := "";
      newPassword := "";
      confirm := "";
      message := None;
    }

    /** Typing in one of the three fields clears the banner. */
    method HandleCurrentChange(value: string)
      modifies this`current, this`message
      ensures current == value && message == None
    {
      current := value;
      message := None;
    }

    method HandleNewChange(value: string)
      modifies this`newPassword, this`message
      ensures newPassword == value && message == None
    {
      newPassword := value;
      message := None;
    }

    method HandleConfirmChange(value: string)
      modifies this`confirm, this`message
      ensures confirm == value && message == None
    {
      confirm := value;
      message := None;
    }

    /** `handlePasswordChange`: a failed check sets its error and returns
        with the stored password untouched; success stores the new password,
        reports it and clears the three fields. */
    method HandlePasswordChange() returns (outcome: Outcome)
      modifies passwords`stored, this`current, this`newPassword, this`confirm, this`message
      ensures outcome == WebCheck(EffectivePassword(old(passwords.stored)), old(current), old(newPassword), old(confirm))
      ensures message == Some(NoticeOf(outcome))
      ensures outcome == Changed ==> passwords.stored == Some(old(newPassword))
      ensures outcome == Changed ==> current == "" && newPassword == "" && confirm == ""
      ensures outcome != Changed ==> passwords.stored == old(passwords.stored)
      ensures outcome != Changed ==> current == old(current) && newPassword == old(newPassword) && confirm == old(confirm)
    {
      message := None;
      if current != EffectivePassword(passwords.stored) {
        message := Some(Notice(false, WrongCurrentText));
        return WrongCurrent;
      }
      if Utf16Length(newPassword) < MinLength {
        message := Some(Notice(false, TooShortText));
        return TooShort;
      }
      if newPassword != confirm {
        message := Some(Notice(false, MismatchText));
        return Mismatch;
      }
      passwords.stored := Some(newPassword);
      message := Some(Notice(true, ChangedText));
      current := "";
      newPassword := "";
      confirm := "";
      outcome := Changed;
    }
  }
}
