/** The contact editing form (`EditContactsView`): validation, change detection and the save payload. */
module ContactEditing {
  import opened Wrappers
  import opened Text
  import opened Users

  /** Raw image bytes. */
  type Data = seq<bv8>

  ghost predicate AllWhitespace(s: string) {
    forall i :: 0 <= i < |s| ==> IsWhitespace(s[i])
  }

  /** `phoneNormalized`: the trimmed phone, or nothing when only whitespace was typed. */
  function NormalizePhone(phone: string): (r: Option<string>)
    ensures r.None? <==> Trim(phone) == []
    ensures r.Some? ==> r.value == Trim(phone) && !IsWhitespace(r.value[0]) && !IsWhitespace(r.value[|r.value| - 1])
  {
    var t := Trim(phone);
    if t == [] then None else Some(t)
  }

  /** `emailValid`: the trimmed address has an "@" and a ".", and does not start or end with "@". */
  function EmailLooksValid(email: string): (b: bool)
    ensures b <==> AddressShape(Trim(email))
    ensures b ==> |Trim(email)| >= 3 && '@' in Trim(email) && '.' in Trim(email)
  {
    var t := Trim(email);
    if AddressShape(t) then AddressShapeLength(t); true else false
  }

  /** Contains an "@" and a ".", and neither starts nor ends with "@". */
  predicate AddressShape(t: string) {
    '@' in t && '.' in t && !(|t| > 0 && t[0] == '@') && !(|t| > 0 && t[|t| - 1] == '@')
  }

  /** An "@" that is neither first nor last has a character on each side. */
  lemma AddressShapeLength(t: string)
    requires AddressShape(t)
    ensures |t| >= 3
  {
    var i :| 0 <= i < |t| && t[i] == '@';
    assert 0 < i < |t| - 1;
  }

  /** An "@" at the start is refused. */
  lemma LeadingAtRefused()
    ensures !EmailLooksValid("@a.b")
  {
    TrimUnpadded("@a.b");
  }

  /** An "@" at the end is refused. */
  lemma TrailingAtRefused()
    ensures !EmailLooksValid("a.b@")
  {
    TrimUnpadded("a.b@");
  }

  /** An address without "@" is refused. */
  lemma MissingAtRefused()
    ensures !EmailLooksValid("ab.c")
  {
    TrimUnpadded("ab.c");
    assert forall k :: 0 <= k < 4 ==> "ab.c"[k] != '@';
  }

  /** An address without "." is refused. */
  lemma MissingDotRefused()
    ensures !EmailLooksValid("a@bc")
  {
    TrimUnpadded("a@bc");
    assert forall k :: 0 <= k < 4 ==> "a@bc"[k] != '.';
  }

  /** An "@" inside and a "." are accepted. */
  lemma InnerAtAccepted()
    ensures EmailLooksValid("a@b.c")
  {
    var t := "a@b.c";
    assert t[1] == '@' && t[3] == '.';
    assert AddressShape(t);
    TrimUnpadded(t);
    assert AddressShape(Trim(t));
  }

  /** Whitespace typed around the phone changes nothing about the normalised phone. */
  lemma PhonePaddingIgnored(pre: string, s: string, post: string)
    requires AllWhitespace(pre) && AllWhitespace(post)
    ensures NormalizePhone(pre + s + post) == NormalizePhone(s)
  {
    TrimIgnoresPadding(pre, s, post);
  }

  /** Whitespace typed around the address does not change its validity. */
  lemma EmailPaddingIgnored(pre: string, s: string, post: string)
    requires AllWhitespace(pre) && AllWhitespace(post)
    ensures EmailLooksValid(pre + s + post) == EmailLooksValid(s)
  {
    TrimIgnoresPadding(pre, s, post);
    assert AddressShape(Trim(pre + s + post)) == AddressShape(Trim(s));
  }

  /** `hasChanges`, given the edited values and the initial ones. */
  function HasChangesOf(email: string, phone: string, city: City, avatarChanged: bool,
                        initialEmail: string, initialPhone: Option<string>, initialCity: City): bool
  {
    Trim(email) != initialEmail || NormalizePhone(phone) != initialPhone || city != initialCity || avatarChanged
  }

  /** An untouched form whose initial values are already normalised has nothing to save. */
  lemma UntouchedFormUnchanged(initialEmail: string, initialPhone: Option<string>, initialCity: City)
    requires Trim(initialEmail) == initialEmail
    requires initialPhone.Some? ==> Trim(initialPhone.value) == initialPhone.value && initialPhone.value != []
    ensures !HasChangesOf(initialEmail, OrElse(initialPhone, ""), initialCity, false, initialEmail, initialPhone, initialCity)
  {
    if initialPhone.None? {
      assert Trim("") == [];
    }
  }

  /**
   * An untouched form counts as changed when its initial phone is present but blank, or its
   * initial address carries surrounding whitespace: the comparisons are against the raw initial values.
   */
  lemma UntouchedFormChanged(initialEmail: string, initialPhone: Option<string>, initialCity: City)
    requires Trim(initialEmail) != initialEmail || (initialPhone.Some? && Trim(initialPhone.value) == [])
    ensures HasChangesOf(initialEmail, OrElse(initialPhone, ""), initialCity, false, initialEmail, initialPhone, initialCity)
  {
  }

  /** What `save` hands to `onSave`. */
  datatype SavePayload = SavePayload(email: string, phone: Option<string>, city: string, avatarData: Option<Data>)

  class EditContactsForm {
    const initialEmail: string
    const initialPhone: Option<string>
    const initialCity: City
    const initialAvatarURL: Option<string>
    const initialAvatarData: Option<Data>

    var emailAddress: string
    var phoneNumber: string
    var city: City
    var userImageData: Option<Data>
    var isSaving: bool
    var avatarChanged: bool
    var isBootstrappingAvatar: bool

    /** `init`: the editable state starts from the initial values, an absent phone as "". */
    constructor(initialEmail: string, initialPhone: Option<string>, initialCity: City,
                initialAvatarURL: Option<string>, initialAvatarData: Option<Data>)
      ensures this.initialEmail == initialEmail && this.initialPhone == initialPhone && this.initialCity == initialCity
      ensures this.initialAvatarURL == initialAvatarURL && this.initialAvatarData == initialAvatarData
      ensures emailAddress == initialEmail && phoneNumber == OrElse(initialPhone, "") && city == initialCity
      ensures userImageData == initialAvatarData
      ensures !isSaving && !avatarChanged && !isBootstrappingAvatar
    {
      this.initialEmail := initialEmail;
      this.initialPhone := initialPhone;
      this.initialCity := initialCity;
      this.initialAvatarURL := initialAvatarURL;
      this.initialAvatarData := initialAvatarData;
      emailAddress := initialEmail;
      phoneNumber := OrElse(initialPhone, "");
      city := initialCity;
      userImageData := initialAvatarData;
      isSaving := false;
      avatarChanged := false;
      isBootstrappingAvatar := false;
    }

    /** `hasChanges`: the trimmed address, the normalised phone or the city differs, or the avatar changed. */
    function HasChanges(): (b: bool)
      reads this
      ensures b <==> Trim(emailAddress) != initialEmail || NormalizePhone(phoneNumber) != initialPhone
                     || city != initialCity || avatarChanged
    {
      HasChangesOf(emailAddress, phoneNumber, city, avatarChanged, initialEmail, initialPhone, initialCity)
    }

    /** `canSave`: a plausible address and something changed. */
    function CanSave(): (b: bool)
      reads this
      ensures b <==> EmailLooksValid(emailAddress) && HasChanges()
      ensures b ==> EmailLooksValid(emailAddress)
      ensures b ==> avatarChanged || city != initialCity || Trim(emailAddress) != initialEmail
                    || NormalizePhone(phoneNumber) != initialPhone
      ensures (!avatarChanged && city == initialCity && Trim(emailAddress) == initialEmail
               && NormalizePhone(phoneNumber) == initialPhone) ==> !b
    {
      EmailLooksValid(emailAddress) && HasChanges()
    }

    /** The values `save` passes on; the avatar only when it was changed by the user. */
    function Payload(): (p: SavePayload)
      reads this
      ensures p.email == Trim(emailAddress) && p.phone == NormalizePhone(phoneNumber)
      ensures p.city == city.DisplayName()
      ensures avatarChanged ==> p.avatarData == userImageData
      ensures !avatarChanged ==> p.avatarData.None?
    {
      SavePayload(Trim(emailAddress), NormalizePhone(phoneNumber), city.DisplayName(),
                  if avatarChanged then userImageData else None)
    }

    /** The user edits the text fields or picks a city. */
    method Edit(email: string, phone: string, newCity: City)
      modifies this
      ensures emailAddress == email && phoneNumber == phone && city == newCity
      ensures userImageData == old(userImageData) && avatarChanged == old(avatarChanged)
      ensures isSaving == old(isSaving) && isBootstrappingAvatar == old(isBootstrappingAvatar)
      ensures EmailLooksValid(email) && Trim(email) != initialEmail ==> CanSave()
      ensures CanSave() <==> EmailLooksValid(email) && HasChangesOf(email, phone, newCity, avatarChanged,
                                                                    initialEmail, initialPhone, initialCity)
    {
      emailAddress := email;
      phoneNumber := phone;
      city := newCity;
    }

    /**
     * The `onChange(of: userImageData)` action: SwiftUI runs it at the view update after a change,
     * comparing with the value it saw at the previous update; it marks the avatar as changed
     * unless the bootstrapping flag is up at that moment.
     */
    method ImageDataChanged(previous: Option<Data>)
      modifies this
      ensures avatarChanged == (old(avatarChanged) || (userImageData != previous && !isBootstrappingAvatar))
      ensures userImageData == old(userImageData) && isBootstrappingAvatar == old(isBootstrappingAvatar)
      ensures emailAddress == old(emailAddress) && phoneNumber == old(phoneNumber) && city == old(city)
      ensures isSaving == old(isSaving)
    {
      if userImageData != previous && !isBootstrappingAvatar {
        avatarChanged := true;
      }
    }

    /** A new image value on its own, followed by the view update that runs the change action. */
    method SetImageData(data: Option<Data>)
      modifies this
      ensures userImageData == data
      ensures avatarChanged == (old(avatarChanged) || (data != old(userImageData) && !isBootstrappingAvatar))
      ensures emailAddress == old(emailAddress) && phoneNumber == old(phoneNumber) && city == old(city)
      ensures isSaving == old(isSaving) && isBootstrappingAvatar == old(isBootstrappingAvatar)
    {
      var previous := userImageData;
      userImageData := data;
      ImageDataChanged(previous);
    }

    /**
     * `bootstrapAvatarIfNeeded`, as written: without image data but with an avatar URL that parses
     * (`urlParses`, the result of `URL(string:)`), the image is fetched (`None` when the request fails).
     * On success the data is stored and the flag lowered in one main-actor block, so the change action
     * runs afterwards with the flag already down and counts the download as a user change.
     */
    method Bootstrap(urlParses: bool, fetched: Option<Data>)
      modifies this
      ensures var runs := old(userImageData).None? && initialAvatarURL.Some? && urlParses;
        && (runs ==> !isBootstrappingAvatar)
        && (!runs ==> isBootstrappingAvatar == old(isBootstrappingAvatar))
        && (runs && fetched.Some? ==> userImageData == fetched && avatarChanged)
        && (!(runs && fetched.Some?) ==> userImageData == old(userImageData) && avatarChanged == old(avatarChanged))
      ensures emailAddress == old(emailAddress) && phoneNumber == old(phoneNumber) && city == old(city)
      ensures isSaving == old(isSaving)
    {
      if userImageData.None? && initialAvatarURL.Some? && urlParses {
        isBootstrappingAvatar := true;
        if fetched.Some? {
          var previous := userImageData;
          userImageData := fetched;
          isBootstrappingAvatar := false;
          ImageDataChanged(previous);
        } else {
          isBootstrappingAvatar := false;
        }
      }
    }

    /**
     * The bootstrap the flag is meant to give: the change action runs while the flag is still up,
     * so a downloaded avatar is never counted as a user change.
     */
    method BootstrapIntended(urlParses: bool, fetched: Option<Data>)
      modifies this
      ensures avatarChanged == old(avatarChanged)
      ensures var runs := old(userImageData).None? && initialAvatarURL.Some? && urlParses;
        && (runs ==> !isBootstrappingAvatar)
        && (!runs ==> isBootstrappingAvatar == old(isBootstrappingAvatar))
        && (runs && fetched.Some? ==> userImageData == fetched)
        && (!(runs && fetched.Some?) ==> userImageData == old(userImageData))
      ensures emailAddress == old(emailAddress) && phoneNumber == old(phoneNumber) && city == old(city)
      ensures isSaving == old(isSaving)
    {
      if userImageData.None? && initialAvatarURL.Some? && urlParses {
        isBootstrappingAvatar := true;
        if fetched.Some? {
          SetImageData(fetched);
        }
        isBootstrappingAvatar := false;
      }
    }

    /** The checkmark button: nothing unless `canSave`; otherwise saving starts with the payload. */
    method TapSave() returns (p: Option<SavePayload>)
      modifies this
      ensures !old(CanSave()) ==> p.None? && isSaving == old(isSaving)
      ensures old(CanSave()) ==> p == Some(old(Payload())) && isSaving
      ensures emailAddress == old(emailAddress) && phoneNumber == old(phoneNumber) && city == old(city)
      ensures userImageData == old(userImageData) && avatarChanged == old(avatarChanged)
      ensures isBootstrappingAvatar == old(isBootstrappingAvatar)
    {
      if !CanSave() {
        return None;
      }
      p := Some(Payload());
      isSaving := true;
    }

    /** The end of the save task, after `onSave` has run. */
    method FinishSave()
      modifies this
      ensures !isSaving
      ensures emailAddress == old(emailAddress) && phoneNumber == old(phoneNumber) && city == old(city)
      ensures userImageData == old(userImageData) && avatarChanged == old(avatarChanged)
      ensures isBootstrappingAvatar == old(isBootstrappingAvatar)
    {
      isSaving := false;
    }
  }
  /** A form opened with "a@b.c", no phone, Ufa, an avatar URL and no image data. */
  method OpenWithAvatarURL() returns (form: EditContactsForm)
    ensures fresh(form)
    ensures form.initialEmail == "a@b.c" && form.initialPhone.None? && form.initialCity == Ufa
    ensures form.initialAvatarURL.Some? && form.userImageData.None?
    ensures form.emailAddress == "a@b.c" && form.phoneNumber == "" && form.city == Ufa
    ensures !form.isSaving && !form.avatarChanged && !form.isBootstrappingAvatar
  {
    form := new EditContactsForm("a@b.c", None, Ufa, Some("https://example.com/avatar.png"), None);
  }

  /** As written: after the avatar download the untouched form can be saved, and it sends the download. */
  method DownloadedAvatarIsSaved(d: Data) returns (p: Option<SavePayload>)
    ensures p == Some(SavePayload("a@b.c", None, "Уфа", Some(d)))
  {
    var form := OpenWithAvatarURL();
    form.Bootstrap(true, Some(d));
    TrimUnpadded("a@b.c");
    assert "a@b.c"[1] == '@' && "a@b.c"[3] == '.';
    assert Trim("") == [];
    p := form.TapSave();
  }

  /** As intended: after the avatar download the untouched form has nothing to save. */
  method DownloadedAvatarNotSaved(d: Data) returns (p: Option<SavePayload>)
    ensures p.None?
  {
    var form := OpenWithAvatarURL();
    form.BootstrapIntended(true, Some(d));
    TrimUnpadded("a@b.c");
    assert Trim("") == [];
    p := form.TapSave();
  }

  /** Editing the address of that form to another valid one makes the checkmark send the new address. */
  method EditedAddressIsSaved() returns (p: Option<SavePayload>)
    ensures p == Some(SavePayload("x@y.z", None, "Уфа", None))
  {
    var form := OpenWithAvatarURL();
    TrimUnpadded("x@y.z");
    assert "x@y.z"[1] == '@' && "x@y.z"[3] == '.';
    assert Trim("") == [];
    form.Edit("x@y.z", "", Ufa);
    p := form.TapSave();
  }
}
