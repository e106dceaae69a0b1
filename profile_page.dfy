/**
 * The profile management page: the tile that opens the new-profile form
 * (shown only below five profiles), the form's create button, and the
 * delete button of each profile.
 */
module ProfilePage {
  import opened Wrappers
  import opened Text
  import opened ProfileContext

  datatype ProfileForm = ProfileForm(name: string, avatar: string, isKid: bool, language: string)

  const EmptyForm := ProfileForm("", "", false, "en")

  /** The most profiles the "Add Profile" tile allows. */
  const MaxProfiles := 5

  const AvatarOptions: seq<string> := [
    "https://images.pexels.com/photos/771742/pexels-photo-771742.jpeg?auto=compress&cs=tinysrgb&w=150&h=150&fit=crop",
    "https://images.pexels.com/photos/1239291/pexels-photo-1239291.jpeg?auto=compress&cs=tinysrgb&w=150&h=150&fit=crop",
    "https://images.pexels.com/photos/1043471/pexels-photo-1043471.jpeg?auto=compress&cs=tinysrgb&w=150&h=150&fit=crop",
    "https://images.pexels.com/photos/1040880/pexels-photo-1040880.jpeg?auto=compress&cs=tinysrgb&w=150&h=150&fit=crop",
    "https://images.pexels.com/photos/1036623/pexels-photo-1036623.jpeg?auto=compress&cs=tinysrgb&w=150&h=150&fit=crop",
    "https://images.pexels.com/photos/1065084/pexels-photo-1065084.jpeg?auto=compress&cs=tinysrgb&w=150&h=150&fit=crop"]

  /** `newProfile.avatar || avatarOptions[0]`: no avatar picked means the first option. */
  function ChosenAvatar(form: ProfileForm): (r: string)
    ensures r != ""
    ensures form.avatar != "" ==> r == form.avatar
    ensures form.avatar == "" ==> r == AvatarOptions[0]
  {
    if form.avatar != "" then form.avatar else AvatarOptions[0]
  }

  class ProfilePageView {
    const store: ProfileStore
    var isCreating: bool
    var form: ProfileForm

    constructor (s: ProfileStore)
      ensures store == s && !isCreating && form == EmptyForm
    {
      store := s;
      isCreating := false;
      form := EmptyForm;
    }

    /** The page keeps the form closed at five profiles, and so never goes past five. */
    ghost predicate Capped()
      reads this, store
    {
      |store.profiles| <= MaxProfiles && (isCreating ==> |store.profiles| < MaxProfiles)
    }

    /** Whether the "Add Profile" tile is rendered. */
    function ShowAddTile(): (r: bool)
      reads this, store
      ensures r <==> |store.profiles| < MaxProfiles
    {
      |store.profiles| < MaxProfiles
    }

    /** A click on the "Add Profile" tile, which exists only below five profiles. */
    method OpenCreateForm()
      modifies this
      ensures isCreating == (old(isCreating) || ShowAddTile())
      ensures form == old(form)
      ensures old(Capped()) ==> Capped()
    {
      if ShowAddTile() {
        isCreating := true;
      }
    }

    method CancelCreate()
      modifies this
      ensures !isCreating && form == old(form)
      ensures old(Capped()) ==> Capped()
    {
      isCreating := false;
    }

    method EditForm(f: ProfileForm)
      modifies this
      ensures form == f && isCreating == old(isCreating)
      ensures old(Capped()) ==> Capped()
    {
      form := f;
    }

    /**
     * `handleCreateProfile`, from the open form: a name that is not blank
     * creates the profile (name as typed, the first avatar when none was
     * picked), clears the form and closes it. A blank name changes nothing.
     */
    method HandleCreateProfile(now: nat)
      modifies this, store
      ensures old(isCreating) && !IsBlank(old(form.name)) ==>
        store.State() == Create(old(store.State()), old(form.name), ChosenAvatar(old(form)),
                                old(form.isKid), old(form.language), now) &&
        form == EmptyForm && !isCreating
      ensures !(old(isCreating) && !IsBlank(old(form.name))) ==>
        store.State() == old(store.State()) && form == old(form) && isCreating == old(isCreating)
      ensures old(store.Valid()) ==> store.Valid()
      ensures old(Capped()) ==> Capped()
    {
      TrimEmptyIffBlank(form.name);
      if !isCreating {
        return;
      }
      if Trim(form.name) != "" {
        store.CreateProfile(form.name, ChosenAvatar(form), form.isKid, form.language, now);
        form := EmptyForm;
        isCreating := false;
      }
    }

    /**
     * `handleDeleteProfile`, once the dialog has been answered: with more
     * than one profile and a confirmation the profile is deleted; otherwise
     * nothing happens.
     */
    method HandleDeleteProfile(profileId: string, confirmed: bool)
      modifies store
      ensures |old(store.profiles)| > 1 && confirmed ==> store.State() == Delete(old(store.State()), profileId)
      ensures !(|old(store.profiles)| > 1 && confirmed) ==> store.State() == old(store.State())
      ensures old(store.Valid()) ==> store.Valid()
      ensures old(Capped()) ==> Capped()
    {
      if |store.profiles| > 1 && confirmed {
        ghost var before := store.State();
        store.DeleteProfile(profileId);
        DeleteEffect(before, profileId);
      }
    }
  }

  /** With distinct ids, deleting through the page always leaves at least one profile. */
  lemma PageDeleteKeepsOne(st: ProfileState, id: string)
    requires |st.profiles| > 1
    requires forall i, j :: 0 <= i < j < |st.profiles| ==> st.profiles[i].id != st.profiles[j].id
    ensures |Delete(st, id).profiles| >= 1
    ensures Delete(st, id).profiles == WithoutId(st.profiles, id)
  {
    DeleteNeverEmpties(st, id);
    DeleteEffect(st, id);
  }
}
