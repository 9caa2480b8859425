/** The profile screen at run time: the profile it edits in place, and the
    app-wide key-value store it saves to and deletes from. */
module Session {
  import opened Wrappers
  import opened Profile

  /** The app's persistent key-value store, as one map the store operations
      replace. */
  class UserDefaults {
    var entries: Store

    constructor (entries: Store)
      ensures this.entries == entries
    {
      this.entries := entries;
    }

    /** Stores `value` under `key`, replacing what was there. */
    method Set(value: Data, key: string)
      modifies this
      ensures entries == old(entries)[key := value]
    {
      entries := entries[key := value];
    }

    /** Removes `key` and what it held; nothing happens when it is absent. */
    method RemoveObject(key: string)
      modifies this
      ensures entries == old(entries) - {key}
    {
      entries := entries - {key};
    }
  }

  /** Writes the profile's stored form under the profile key. */
  method Save(defaults: UserDefaults, personaInfo: PersonaInfo)
    modifies defaults
    ensures defaults.entries == Saved(old(defaults.entries), personaInfo)
  {
    var encoded := Encode(personaInfo);
    defaults.Set(encoded, Key);
  }

  /** Removes the profile key from the store. */
  method DeletePersonaInfo(defaults: UserDefaults)
    modifies defaults
    ensures defaults.entries == Deleted(old(defaults.entries))
  {
    defaults.RemoveObject(Key);
  }

  /** The profile screen: the profile it is bound to, edited in place by its
      text fields, checkboxes and buttons, and the store it writes to. */
  class PersonalInformationView {
    var personaInfo: PersonaInfo
    const defaults: UserDefaults

    /** The screen as the sign-in screen opens it: bound to a profile built
        with no arguments. */
    constructor (defaults: UserDefaults)
      ensures personaInfo == DefaultInfo() && this.defaults == defaults
    {
      personaInfo := PersonaInfo("", "", "", "", NotificationPreferences(false, false, false, false));
      this.defaults := defaults;
    }

    /** Clears the profile field by field: whatever it held, it ends as the
        default profile, so a second reset changes nothing. */
    method Reset()
      modifies this
      ensures personaInfo == DefaultInfo()
    {
      personaInfo := personaInfo.(firstName := "");
      personaInfo := personaInfo.(email := "");
      personaInfo := personaInfo.(lastName := "");
      personaInfo := personaInfo.(phoneNumber := "");
      personaInfo := personaInfo.(notificationPreferences := NotificationPreferences(false, false, false, false));
    }

    /** Typing in the "First name" field. */
    method EditFirstName(text: string)
      modifies this
      ensures personaInfo == old(personaInfo).(firstName := text)
    {
      personaInfo := personaInfo.(firstName := text);
    }

    /** Typing in the "Last name" field. */
    method EditLastName(text: string)
      modifies this
      ensures personaInfo == old(personaInfo).(lastName := text)
    {
      personaInfo := personaInfo.(lastName := text);
    }

    /** Typing in the "Email" field. */
    method EditEmail(text: string)
      modifies this
      ensures personaInfo == old(personaInfo).(email := text)
    {
      personaInfo := personaInfo.(email := text);
    }

    /** Typing in the "Phone number" field. */
    method EditPhoneNumber(text: string)
      modifies this
      ensures personaInfo == old(personaInfo).(phoneNumber := text)
    {
      personaInfo := personaInfo.(phoneNumber := text);
    }

    /** A tap on the "Order statuses" checkbox: that flag flips, every other
        part of the profile stays. */
    method ToggleOrderStatuses()
      modifies this
      ensures personaInfo == old(personaInfo).(notificationPreferences := Flip(old(personaInfo.notificationPreferences), OrderStatuses))
    {
      var n := personaInfo.notificationPreferences;
      personaInfo := personaInfo.(notificationPreferences := n.(orderStatuses := !n.orderStatuses));
    }

    /** A tap on the "Password changes" checkbox. */
    method TogglePasswordChanges()
      modifies this
      ensures personaInfo == old(personaInfo).(notificationPreferences := Flip(old(personaInfo.notificationPreferences), PasswordChanges))
    {
      var n := personaInfo.notificationPreferences;
      personaInfo := personaInfo.(notificationPreferences := n.(passwordChanges := !n.passwordChanges));
    }

    /** A tap on the "Special offers" checkbox. */
    method ToggleSpecialOffers()
      modifies this
      ensures personaInfo == old(personaInfo).(notificationPreferences := Flip(old(personaInfo.notificationPreferences), SpecialOffers))
    {
      var n := personaInfo.notificationPreferences;
      personaInfo := personaInfo.(notificationPreferences := n.(specialOffers := !n.specialOffers));
    }

    /** A tap on the "Newsletter" checkbox. */
    method ToggleNewsletter()
      modifies this
      ensures personaInfo == old(personaInfo).(notificationPreferences := Flip(old(personaInfo.notificationPreferences), Newsletter))
    {
      var n := personaInfo.notificationPreferences;
      personaInfo := personaInfo.(notificationPreferences := n.(newsletter := !n.newsletter));
    }

    /** The "Log out" button's own steps: the profile is reset, then deleted
        from the store. A load immediately afterwards finds nothing, whatever
        was saved before. */
    method LogOut()
      modifies this, defaults
      ensures personaInfo == DefaultInfo()
      ensures defaults.entries == Deleted(old(defaults.entries))
      ensures LoadPersonalInfo(defaults.entries) == None
    {
      Reset();
      DeletePersonaInfo(defaults);
    }

    /** Leaving the screen saves the profile as it stands; a load afterwards
        gives it back. */
    method OnDisappear()
      modifies defaults
      ensures defaults.entries == Saved(old(defaults.entries), personaInfo)
      ensures LoadPersonalInfo(defaults.entries) == Some(personaInfo)
    {
      Save(defaults, personaInfo);
      LoadSaved(old(defaults.entries), personaInfo);
    }

    /** "Log out" as the app runs it: the button resets and deletes, then
        dismisses the screen, and leaving the screen saves the profile it is
        bound to, which the reset has just cleared. The key ends up holding
        the default profile, so a later load finds it instead of nothing. */
    method LogOutThenLeave()
      modifies this, defaults
      ensures personaInfo == DefaultInfo()
      ensures defaults.entries == Saved(Deleted(old(defaults.entries)), DefaultInfo())
      ensures LoadPersonalInfo(defaults.entries) == Some(DefaultInfo())
    {
      LogOut();
      OnDisappear();
    }

    /** Log out with the delete after the screen's save on leaving: the
        profile is reset, the screen saves as it goes, and only then is the
        key deleted. The store ends exactly as the button's own steps leave
        it, and a later load finds nothing. */
    method LogOutDeletingLast()
      modifies this, defaults
      ensures personaInfo == DefaultInfo()
      ensures defaults.entries == Deleted(old(defaults.entries))
      ensures LoadPersonalInfo(defaults.entries) == None
    {
      Reset();
      OnDisappear();
      DeletePersonaInfo(defaults);
      DeleteAfterSave(old(defaults.entries), DefaultInfo());
    }
  }

  /** After logging out and leaving the screen, a load returns the default
      profile, not nothing: the store holds a profile although the user
      logged out. */
  lemma LogOutThenLeaveLoadsDefault(store: Store)
    ensures LoadPersonalInfo(Saved(Deleted(store), DefaultInfo())) == Some(DefaultInfo())
    ensures LoadPersonalInfo(Saved(Deleted(store), DefaultInfo())) != LoadPersonalInfo(Deleted(store))
  {
    LoadSaved(Deleted(store), DefaultInfo());
  }
}
