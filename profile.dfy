/** The profile page (static/js/profile.js): the password-strength meter and
    the password-update checks, the conversion between preference keys and
    checkbox ids, and the profile manager's updates of the user record. */
module Profile {
  import opened Common

  // ----- password strength ------------------------------------------------------

  predicate HasLower(p: string) { exists i :: 0 <= i < |p| && IsAsciiLower(p[i]) }
  predicate HasUpper(p: string) { exists i :: 0 <= i < |p| && IsAsciiUpper(p[i]) }
  predicate HasDigit(p: string) { exists i :: 0 <= i < |p| && IsAsciiDigit(p[i]) }
  /** `/[^A-Za-z0-9]/`: some character that is not an ASCII letter or digit. */
  predicate HasSymbol(p: string) { exists i :: 0 <= i < |p| && !IsAsciiAlphaNum(p[i]) }
  predicate LongEnough(p: string) { Utf16Length(p) >= 8 }

  function Indicator(b: bool): nat { if b then 1 else 0 }

  /** How many of the five criteria the password meets. */
  function CriteriaMet(p: string): nat
  {
    Indicator(LongEnough(p)) + Indicator(HasLower(p)) + Indicator(HasUpper(p))
    + Indicator(HasDigit(p)) + Indicator(HasSymbol(p))
  }

  /** The score lies in 0..5, is 0 exactly for the empty password, and is 5
      exactly when every criterion holds. */
  lemma CriteriaBounds(p: string)
    ensures CriteriaMet(p) <= 5
    ensures CriteriaMet(p) == 0 <==> p == ""
    ensures CriteriaMet(p) == 5 <==> LongEnough(p) && HasLower(p) && HasUpper(p) && HasDigit(p) && HasSymbol(p)
  {
    if p != "" {
      var c := p[0];
      if IsAsciiLower(c) { assert HasLower(p); }
      else if IsAsciiUpper(c) { assert HasUpper(p); }
      else if IsAsciiDigit(c) { assert HasDigit(p); }
      else { assert HasSymbol(p); }
    }
  }

  /** The label of a score; the switch has no case above 5, where the
      initial `Very Weak` would remain. */
  function StrengthLabel(strength: nat): string
  {
    if strength <= 1 then "Weak"
    else if strength == 2 then "Fair"
    else if strength <= 4 then "Good"
    else if strength == 5 then "Strong"
    else "Very Weak"
  }

  /** No score the meter can compute shows `Very Weak`. */
  lemma VeryWeakNeverShown(p: string)
    ensures StrengthLabel(CriteriaMet(p)) != "Very Weak"
    ensures StrengthLabel(CriteriaMet(p)) == "Strong" <==> CriteriaMet(p) == 5
  {
    CriteriaBounds(p);
  }

  /** `checkPasswordStrength`: the score, counted criterion by criterion, and
      the text shown under the bar. */
  method CheckPasswordStrength(password: string) returns (strength: nat, text: string)
    ensures strength == CriteriaMet(password) && strength <= 5
    ensures text == "Password strength: " + StrengthLabel(strength)
    ensures strength == 0 <==> password == ""
  {
    strength := 0;
    var strengthLabel := "Very Weak";
    if Utf16Length(password) >= 8 { strength := strength + 1; }
    if HasLower(password) { strength := strength + 1; }
    if HasUpper(password) { strength := strength + 1; }
    if HasDigit(password) { strength := strength + 1; }
    if HasSymbol(password) { strength := strength + 1; }
    CriteriaBounds(password);
    if strength <= 1 {
      strengthLabel := "Weak";
    } else if strength == 2 {
      strengthLabel := "Fair";
    } else if strength <= 4 {
      strengthLabel := "Good";
    } else if strength == 5 {
      strengthLabel := "Strong";
    }
    text := "Password strength: " + strengthLabel;
  }

  // ----- the password-update checks ---------------------------------------------

  datatype PasswordCheck = Mismatch | TooShort | Accepted

  /** `handlePasswordUpdate`'s checks, in order: the confirmation must match,
      then the new password must have 8 UTF-16 code units. The current
      password is read but never checked. */
  function CheckPasswordUpdate(current: string, newPassword: string, confirm: string): (r: PasswordCheck)
    ensures r == Mismatch <==> newPassword != confirm
    ensures r == TooShort <==> newPassword == confirm && Utf16Length(newPassword) < 8
    ensures r == Accepted <==> newPassword == confirm && Utf16Length(newPassword) >= 8
  {
    if newPassword != confirm then Mismatch
    else if Utf16Length(newPassword) < 8 then TooShort
    else Accepted
  }

  /** A new password the update accepts meets the length criterion of the
      strength meter, so its score is at least 1 and it is never shown as
      Weak for want of length alone. */
  lemma AcceptedPasswordIsLong(current: string, newPassword: string, confirm: string)
    requires CheckPasswordUpdate(current, newPassword, confirm) == Accepted
    ensures LongEnough(newPassword) && CriteriaMet(newPassword) >= 2
  {
    assert |newPassword| > 0 by {
      assert Utf16Length(newPassword) <= 2 * |newPassword|;
    }
    CriteriaBounds(newPassword);
  }

  function PasswordMessage(r: PasswordCheck): string
  {
    match r
    case Mismatch => "Passwords do not match"
    case TooShort => "Password must be at least 8 characters"
    case Accepted => "Password updated successfully!"
  }

  // ----- preference keys and checkbox ids ---------------------------------------

  /** The id part for one key character: an upper-case letter `X` becomes
      `-x`; `toLowerCase` leaves the other ASCII characters alone. */
  function KebabChar(c: char): string
  {
    if IsAsciiUpper(c) then ['-', AsciiToLower(c)] else [AsciiToLower(c)]
  }

  /** `key.replace(/([A-Z])/g, '-$1').toLowerCase()` for ASCII keys. */
  function ToKebab(key: string): (id: string)
    ensures |id| >= |key|
  {
    if |key| == 0 then "" else KebabChar(key[0]) + ToKebab(key[1..])
  }

  /** `id.replace(/-([a-z])/g, g => g[1].toUpperCase())`: every hyphen that is
      followed by a lower-case letter is dropped and the letter raised. */
  function ToCamel(id: string): (key: string)
    ensures |key| <= |id|
  {
    if |id| == 0 then ""
    else if id[0] == '-' && |id| >= 2 && IsAsciiLower(id[1]) then [AsciiToUpper(id[1])] + ToCamel(id[2..])
    else [id[0]] + ToCamel(id[1..])
  }

  predicate IsAsciiAlphaNumKey(key: string)
  {
    forall i :: 0 <= i < |key| ==> IsAsciiAlphaNum(key[i])
  }

  /** The id a preference's checkbox is looked up by maps back to the same
      preference key, for any key of ASCII letters and digits. */
  lemma {:induction false} CamelOfKebab(key: string)
    requires IsAsciiAlphaNumKey(key)
    ensures ToCamel(ToKebab(key)) == key
  {
    if |key| > 0 {
      var c := key[0];
      var rest := ToKebab(key[1..]);
      assert IsAsciiAlphaNumKey(key[1..]);
      CamelOfKebab(key[1..]);
      if IsAsciiUpper(c) {
        var id := ['-', AsciiToLower(c)] + rest;
        assert id[2..] == rest;
      } else {
        var id := [c] + rest;
        assert id[1..] == rest;
      }
      assert key == [c] + key[1..];
    }
  }

  const PreferenceKeys: seq<string> :=
    ["emailNotifications", "pushNotifications", "weeklyReports",
     "smartSuggestions", "dataAnalytics", "marketingEmails"]

  /** The six preference keys survive the trip through their checkbox ids. */
  lemma PreferenceKeysRoundTrip(k: nat)
    requires k < |PreferenceKeys|
    ensures ToCamel(ToKebab(PreferenceKeys[k])) == PreferenceKeys[k]
  {
    var key := PreferenceKeys[k];
    assert IsAsciiAlphaNumKey(key);
    CamelOfKebab(key);
  }

  // ----- the user record --------------------------------------------------------

  /** `updateFinancialStats`: a year is twelve months; every other period is
      taken as one month. */
  function PeriodMultiplier(period: string): (m: nat)
    ensures m == 12 || m == 1
    ensures m == 12 <==> period == "year"
  {
    if period == "year" then 12 else 1
  }

  /** The user record; amounts are whole currency units as in the source. */
  datatype UserData = UserData(
    firstName: string, lastName: string, email: string, phone: string,
    dateOfBirth: string, university: string, memberSince: string,
    loggingStreak: int, totalSaved: int, monthlySpend: int, savingsRate: int,
    avgDaily: int, avatar: string, preferences: map<string, bool>)

  /** The record `loadUserData` returns. */
  function InitialUserData(): UserData
  {
    UserData("Sarah", "Johnson", "sarah.johnson@university.edu", "+1 (555) 123-4567",
             "2002-03-15", "State University", "2023-12-01", 12, 1250, 1245, 65, 41,
             "https://images.pexels.com/photos/1239291/pexels-photo-1239291.jpeg?auto=compress&cs=tinysrgb&w=150&h=150&fit=crop&crop=face",
             map["emailNotifications" := true, "pushNotifications" := true, "weeklyReports" := true,
                 "smartSuggestions" := true, "dataAnalytics" := false, "marketingEmails" := false])
  }

  class ProfileManager {
    var userData: UserData
    /** What `localStorage` holds under `budgetBuddyProfile`. */
    var savedProfile: Option<UserData>
    var avatarModalOpen: bool
    /** The avatar picked in the open avatar modal. */
    var selectedAvatar: string

    constructor ()
      ensures userData == InitialUserData() && savedProfile == None
      ensures !avatarModalOpen
    {
      userData := InitialUserData();
      savedProfile := None;
      avatarModalOpen := false;
      selectedAvatar := "";
    }

    /** `updatePreference`: the toggle's id names the preference to set; the
        record is saved and the message says which way it went. */
    method UpdatePreference(toggleId: string, checked: bool) returns (message: string)
      modifies this`userData, this`savedProfile
      ensures userData == old(userData).(preferences := old(userData).preferences[ToCamel(toggleId) := checked])
      ensures savedProfile == Some(userData)
      ensures message == if checked then "Preference enabled" else "Preference disabled"
    {
      userData := userData.(preferences := userData.preferences[ToCamel(toggleId) := checked]);
      savedProfile := Some(userData);
      message := if checked then "Preference enabled" else "Preference disabled";
    }

    /** Toggling the checkbox built for `key` sets that preference and leaves
        every other preference and every other field as it was. */
    method TogglePreferenceOf(key: string, checked: bool)
      requires IsAsciiAlphaNumKey(key)
      modifies this`userData, this`savedProfile
      ensures userData.preferences == old(userData.preferences)[key := checked]
      ensures forall k :: k != key && k in old(userData.preferences) ==>
                k in userData.preferences && userData.preferences[k] == old(userData.preferences)[k]
      ensures userData == old(userData).(preferences := userData.preferences)
    {
      CamelOfKebab(key);
      var _ := UpdatePreference(ToKebab(key), checked);
    }

    /** `updateFinancialStats`: the saved total and the monthly spend shown
        for the period. */
    function DisplayedStats(period: string): (shown: (int, int))
      reads this
      ensures period == "year" ==> shown == (12 * userData.totalSaved, 12 * userData.monthlySpend)
      ensures period != "year" ==> shown == (userData.totalSaved, userData.monthlySpend)
    {
      var m := PeriodMultiplier(period);
      (userData.totalSaved * m, userData.monthlySpend * m)
    }

    /** `handleProfileUpdate`: the six personal fields take the form's values. */
    method HandleProfileUpdate(firstName: string, lastName: string, email: string, phone: string,
                               dateOfBirth: string, university: string)
      modifies this`userData
      ensures userData == old(userData).(firstName := firstName, lastName := lastName, email := email,
                                         phone := phone, dateOfBirth := dateOfBirth, university := university)
    {
      userData := userData.(firstName := firstName, lastName := lastName, email := email,
                            phone := phone, dateOfBirth := dateOfBirth, university := university);
    }

    /** `updateAvatar`: only the avatar changes. */
    method UpdateAvatar(newAvatar: string)
      modifies this`userData
      ensures userData == old(userData).(avatar := newAvatar)
    {
      userData := userData.(avatar := newAvatar);
    }

    /** `showAvatarModal`: the selection starts as the current avatar. */
    method ShowAvatarModal()
      modifies this`avatarModalOpen, this`selectedAvatar
      ensures avatarModalOpen && selectedAvatar == userData.avatar
    {
      avatarModalOpen := true;
      selectedAvatar := userData.avatar;
    }

    /** A preset clicked or a file read: the selection changes, the avatar
        does not. */
    method PickAvatar(source: string)
      modifies this`selectedAvatar
      ensures selectedAvatar == source
    {
      selectedAvatar := source;
    }

    /** Save: the selection becomes the avatar and the modal closes. */
    method SaveAvatar()
      modifies this`userData, this`avatarModalOpen
      ensures userData == old(userData).(avatar := selectedAvatar)
      ensures !avatarModalOpen
    {
      UpdateAvatar(selectedAvatar);
      avatarModalOpen := false;
    }

    /** Close, Cancel or the overlay: the modal closes, the avatar stays. */
    method DismissAvatarModal()
      modifies this`avatarModalOpen
      ensures !avatarModalOpen
    {
      avatarModalOpen := false;
    }

    /** `handlePasswordUpdate`: the message shown; nothing in the record
        changes either way. */
    method HandlePasswordUpdate(current: string, newPassword: string, confirm: string) returns (message: string)
      ensures message == PasswordMessage(CheckPasswordUpdate(current, newPassword, confirm))
    {
      if newPassword != confirm {
        return "Passwords do not match";
      }
      if Utf16Length(newPassword) < 8 {
        return "Password must be at least 8 characters";
      }
      message := "Password updated successfully!";
    }
  }
}
