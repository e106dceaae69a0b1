/**
 * The viewer profiles and the current profile. The last remaining profile
 * cannot be deleted, and deleting the current profile moves the current
 * profile to the first one left. Browser storage is a parameter of the
 * load step.
 */
module ProfileContext {
  import opened Wrappers
  import opened Text
  import opened Seqs

  datatype Profile = Profile(id: string, name: string, avatar: string, isKid: bool, language: string)

  datatype ProfileState = ProfileState(profiles: seq<Profile>, current: Option<Profile>)

  const MainProfile := Profile("1", "Main Profile",
    "https://images.pexels.com/photos/771742/pexels-photo-771742.jpeg?auto=compress&cs=tinysrgb&w=150&h=150&fit=crop",
    false, "en")

  const DefaultState := ProfileState([MainProfile], Some(MainProfile))

  /** The first profile of a list, or none for an empty list (`list[0] || null`). */
  function FirstOrNone(list: seq<Profile>): (r: Option<Profile>)
    ensures r.Some? <==> list != []
    ensures r.Some? ==> r.value == list[0]
  {
    if list == [] then None else Some(list[0])
  }

  /** The mount effect: a stored list replaces the profiles, and its first entry becomes current. */
  function Load(st: ProfileState, stored: Option<seq<Profile>>): (r: ProfileState)
    ensures stored.None? ==> r == st
    ensures stored.Some? ==> r.profiles == stored.value && r.current == FirstOrNone(stored.value)
  {
    if stored.Some? then ProfileState(stored.value, FirstOrNone(stored.value)) else st
  }

  /** `createProfile`: the new profile gets the time as its id and goes at the end. */
  function Create(st: ProfileState, name: string, avatar: string, isKid: bool, language: string, now: nat): (r: ProfileState)
    ensures |r.profiles| == |st.profiles| + 1
    ensures r.profiles[..|st.profiles|] == st.profiles
    ensures r.profiles[|st.profiles|] == Profile(NatToString(now), name, avatar, isKid, language)
    ensures r.current == st.current
  {
    st.(profiles := st.profiles + [Profile(NatToString(now), name, avatar, isKid, language)])
  }

  /**
   * `switchProfile`: only a known id changes the current profile, and when
   * several profiles share it, the first of them becomes current.
   */
  function Switch(st: ProfileState, id: string): (r: ProfileState)
    ensures r.profiles == st.profiles
    ensures (forall i :: 0 <= i < |st.profiles| ==> st.profiles[i].id != id) ==> r.current == st.current
    ensures (exists i :: 0 <= i < |st.profiles| && st.profiles[i].id == id) ==>
      exists k :: 0 <= k < |st.profiles| && st.profiles[k].id == id &&
        (forall j :: 0 <= j < k ==> st.profiles[j].id != id) && r.current == Some(st.profiles[k])
  {
    match Find(st.profiles, (p: Profile) => p.id == id)
    case Some(p) => st.(current := Some(p))
    case None => st
  }

  /** The profiles `deleteProfile(id)` keeps. */
  function WithoutId(list: seq<Profile>, id: string): (r: seq<Profile>)
    ensures forall i :: 0 <= i < |r| ==> r[i].id != id
    ensures forall i :: 0 <= i < |list| && list[i].id != id ==> list[i] in r
  {
    Filter(list, (p: Profile) => p.id != id)
  }

  /** `deleteProfile(id)`. */
  function Delete(st: ProfileState, id: string): (r: ProfileState)
  {
    if |st.profiles| == 1 then st
    else
      var updated := WithoutId(st.profiles, id);
      if st.current.Some? && st.current.value.id == id then ProfileState(updated, FirstOrNone(updated))
      else st.(profiles := updated)
  }

  /** With a single profile, deletion does nothing, whatever the id. */
  lemma DeleteLastIsNoOp(st: ProfileState, id: string)
    requires |st.profiles| == 1
    ensures Delete(st, id) == st
  {
  }

  /**
   * Otherwise exactly the profiles with that id go, the others stay in
   * order; the current profile moves to the first one left only when it was
   * the deleted one.
   */
  lemma DeleteEffect(st: ProfileState, id: string)
    requires |st.profiles| != 1
    ensures var r := Delete(st, id);
      r.profiles == WithoutId(st.profiles, id) &&
      IsSubsequence(r.profiles, st.profiles) &&
      (st.current.Some? && st.current.value.id == id ==> r.current == FirstOrNone(r.profiles)) &&
      (!(st.current.Some? && st.current.value.id == id) ==> r.current == st.current)
  {
    FilterIsSubsequence(st.profiles, (p: Profile) => p.id != id);
  }

  /** With distinct ids, deleting from two or more profiles leaves at least one. */
  lemma DeleteNeverEmpties(st: ProfileState, id: string)
    requires |st.profiles| >= 1
    requires forall i, j :: 0 <= i < j < |st.profiles| ==> st.profiles[i].id != st.profiles[j].id
    ensures |Delete(st, id).profiles| >= 1
  {
    if |st.profiles| > 1 {
      var p := if st.profiles[0].id != id then st.profiles[0] else st.profiles[1];
      assert p.id != id;
      assert p in WithoutId(st.profiles, id);
    }
  }

  /** Ids are not checked for uniqueness: two profiles sharing the deleted id both go, leaving none. */
  lemma SharedIdEmptiesList(p: Profile, q: Profile)
    requires p.id == q.id
    ensures Delete(ProfileState([p, q], Some(p)), p.id) == ProfileState([], None)
  {
    var keep := (x: Profile) => x.id != p.id;
    assert [p, q][1..] == [q] && [q][1..] == [];
    assert Filter([p, q], keep) == Filter([q], keep) == Filter([], keep) == [];
  }

  /** The current profile, when there is one, is one of the profiles. */
  ghost predicate Inv(st: ProfileState)
  {
    st.current.Some? ==> st.current.value in st.profiles
  }

  lemma StepsPreserveInv(st: ProfileState, stored: Option<seq<Profile>>, id: string,
                         name: string, avatar: string, isKid: bool, language: string, now: nat)
    requires Inv(st)
    ensures Inv(DefaultState)
    ensures Inv(Load(st, stored))
    ensures Inv(Create(st, name, avatar, isKid, language, now))
    ensures Inv(Switch(st, id))
    ensures Inv(Delete(st, id))
  {
    var c := Create(st, name, avatar, isKid, language, now);
    if st.current.Some? {
      var k :| 0 <= k < |st.profiles| && st.profiles[k] == st.current.value;
      assert c.profiles[k] == st.current.value;
    }
  }

  class ProfileStore {
    var profiles: seq<Profile>
    var currentProfile: Option<Profile>

    function State(): ProfileState
      reads this
    {
      ProfileState(profiles, currentProfile)
    }

    ghost predicate Valid()
      reads this
    {
      Inv(State())
    }

    constructor ()
      ensures State() == DefaultState && Valid()
    {
      profiles := [MainProfile];
      currentProfile := Some(MainProfile);
    }

    /** The mount effect, given what storage holds (`None` when nothing is stored). */
    method LoadStored(stored: Option<seq<Profile>>)
      modifies this
      ensures State() == Load(old(State()), stored)
      ensures old(Valid()) ==> Valid()
    {
      if stored.Some? {
        profiles := stored.value;
        currentProfile := if stored.value != [] then Some(stored.value[0]) else None;
      }
    }

    method CreateProfile(name: string, avatar: string, isKid: bool, language: string, now: nat)
      modifies this
      ensures State() == Create(old(State()), name, avatar, isKid, language, now)
      ensures old(Valid()) ==> Valid()
    {
      ghost var before := State();
      profiles := profiles + [Profile(NatToString(now), name, avatar, isKid, language)];
      if Inv(before) {
        StepsPreserveInv(before, None, "", name, avatar, isKid, language, now);
      }
    }

    method SwitchProfile(id: string)
      modifies this
      ensures State() == Switch(old(State()), id)
      ensures old(Valid()) ==> Valid()
    {
      ghost var before := State();
      var k := FindIndex(profiles, (p: Profile) => p.id == id);
      if k.Some? {
        currentProfile := Some(profiles[k.value]);
      }
      if Inv(before) {
        StepsPreserveInv(before, None, id, "", "", false, "", 0);
      }
    }

    method DeleteProfile(id: string)
      modifies this
      ensures State() == Delete(old(State()), id)
      ensures old(Valid()) ==> Valid()
    {
      ghost var before := State();
      if Inv(before) {
        StepsPreserveInv(before, None, id, "", "", false, "", 0);
      }
      if |profiles| == 1 {
        return;
      }
      var updated := WithoutId(profiles, id);
      profiles := updated;
      if currentProfile.Some? && currentProfile.value.id == id {
        currentProfile := if updated != [] then Some(updated[0]) else None;
      }
    }
  }
}
