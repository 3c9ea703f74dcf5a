/** The profile editor of ProfileModal.tsx: a draft of the signed-in account, an optional new
    picture, and the record handed to the store on save. */
module ProfileModal {
  import opened Optional
  import opened Types
  import App

  /** The inputs that can change the draft; the phone input is read-only and disabled. */
  datatype EditableField = Name | UpiId

  /** `{ ...prev, [name]: value }` for an editable input. */
  function WithField(p: UserProfile, f: EditableField, v: string): (r: UserProfile)
    ensures f == Name ==> r.name == v && r.upiId == p.upiId
    ensures f == UpiId ==> r.upiId == v && r.name == p.name
    ensures r.username == p.username && r.phone == p.phone
    ensures r.profilePic == p.profilePic && r.password == p.password
  {
    match f
    case Name => p.(name := v)
    case UpiId => p.(upiId := v)
  }

  /** `{ ...profile, profilePic: imagePreview || profile.profilePic }`: a non-empty preview
      replaces the picture, and nothing else about the draft changes. */
  function SaveMerge(draft: UserProfile, preview: Option<string>): (r: UserProfile)
    ensures r == draft.(profilePic := r.profilePic)
    ensures preview.Some? && preview.value != "" ==> r.profilePic == preview.value
    ensures preview.None? || preview.value == "" ==> r == draft
  {
    draft.(profilePic := if preview.Some? && preview.value != "" then preview.value else draft.profilePic)
  }

  /** A sequence of keystrokes in the editable inputs. */
  function ApplyEdits(p: UserProfile, edits: seq<(EditableField, string)>): UserProfile
    decreases |edits|
  {
    if edits == [] then p
    else ApplyEdits(WithField(p, edits[0].0, edits[0].1), edits[1..])
  }

  /** However the name and UPI id were edited and whatever picture was chosen, the profile the
      store keeps after saving still has the account's username, phone and password, so the
      session marker and the saved-account key stay valid. */
  lemma {:induction false} SavedProfileKeepsIdentity(current: UserProfile, edits: seq<(EditableField, string)>, preview: Option<string>)
    ensures
      var merged := App.MergeProfile(current, SaveMerge(ApplyEdits(current, edits), preview));
      merged.username == current.username && merged.phone == current.phone && merged.password == current.password
  {
    EditsKeepIdentity(current, edits);
  }

  lemma {:induction false} EditsKeepIdentity(p: UserProfile, edits: seq<(EditableField, string)>)
    ensures var q := ApplyEdits(p, edits);
      q.username == p.username && q.phone == p.phone && q.password == p.password
    decreases |edits|
  {
    if edits != [] {
      EditsKeepIdentity(WithField(p, edits[0].0, edits[0].1), edits[1..]);
    }
  }

  class ProfileEditor {
    var profile: UserProfile
    var imagePreview: Option<string>

    constructor (userProfile: UserProfile)
      ensures profile == userProfile && imagePreview == None
    {
      profile := userProfile;
      imagePreview := None;
    }

    /** The effect run when the editor opens: the draft restarts from the account. */
    method Open(userProfile: UserProfile)
      modifies this
      ensures profile == userProfile && imagePreview == None
    {
      profile := userProfile;
      imagePreview := None;
    }

    /** `handleInputChange` */
    method InputChange(f: EditableField, value: string)
      modifies this`profile
      ensures profile == WithField(old(profile), f, value)
    {
      profile := WithField(profile, f, value);
    }

    /** The state write made once a chosen picture has been read. */
    method ImageLoaded(dataUrl: string)
      modifies this`imagePreview
      ensures imagePreview == Some(dataUrl)
    {
      imagePreview := Some(dataUrl);
    }

    /** `handleSaveChanges`: the record handed to `onSave`. */
    method Save() returns (saved: UserProfile)
      ensures saved == SaveMerge(profile, imagePreview)
      ensures saved.name == profile.name && saved.upiId == profile.upiId && saved.phone == profile.phone
      ensures imagePreview.Some? && imagePreview.value != "" ==> saved.profilePic == imagePreview.value
      ensures imagePreview.None? || imagePreview.value == "" ==> saved.profilePic == profile.profilePic
    {
      saved := SaveMerge(profile, imagePreview);
    }
  }
}
