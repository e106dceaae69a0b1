/**
 * The branching "interactive movie" player: a keyed table of scenes whose
 * choices name the scene that follows, a current scene, the list of visited
 * scene ids and the log of choices made.
 *
 * The host's timers are explicit events here:
 *  - "window opens": the timeout armed when a non-ending scene becomes
 *    current fires, shows the choices and starts a 10-second countdown;
 *  - "tick": one running countdown interval fires (at the last tick it
 *    stops, and picks the first choice when nothing is selected);
 *  - "transition completes": the oldest 1-second timeout scheduled by a
 *    selection fires and moves to the chosen scene.
 * Every event is a function from one `SessionState` to the next, and the
 * `Session` class performs the same updates on its fields.
 */
module InteractiveMovie {
  import opened Wrappers
  import opened Seqs

  datatype EndingType = Good | Bad | Neutral

  datatype Choice = Choice(id: string, text: string, nextScene: string)

  datatype Scene = Scene(
    id: string,
    title: string,
    duration: nat,
    choices: seq<Choice>,
    isEnding: bool,
    endingType: Option<EndingType>)

  /** One entry of `userChoices`: the scene a choice was made in and the choice's id. */
  datatype ChoiceRecord = ChoiceRecord(scene: string, choice: string)

  // ---------------------------------------------------------------------
  // The scene table

  const IntroScene := Scene("intro", "The Heist Begins", 30,
    [Choice("stealth", "Sneak in through the ventilation system", "stealth_path"),
     Choice("direct", "Walk in through the front door", "direct_path")], false, None)
  const StealthPath := Scene("stealth_path", "In the Vents", 25,
    [Choice("wait", "Wait for the guards to pass", "vault_access"),
     Choice("distract", "Create a distraction", "alarm_triggered")], false, None)
  const DirectPath := Scene("direct_path", "Bold Entry", 20,
    [Choice("charm", "Charm the receptionist", "vault_access"),
     Choice("authority", "Act with authority", "security_check")], false, None)
  const VaultAccess := Scene("vault_access", "The Vault", 35,
    [Choice("hack", "Hack the system yourself", "good_ending"),
     Choice("explosives", "Use explosives", "bad_ending")], false, None)
  const AlarmTriggered := Scene("alarm_triggered", "Alarm!", 15,
    [Choice("fight", "Fight your way out", "bad_ending"),
     Choice("hide", "Find a hiding spot", "neutral_ending")], false, None)
  const SecurityCheck := Scene("security_check", "Security Checkpoint", 20,
    [Choice("fake_id", "Show fake credentials", "vault_access"),
     Choice("bribe", "Offer a bribe", "neutral_ending")], false, None)
  const GoodEnding := Scene("good_ending", "Perfect Heist", 30, [], true, Some(Good))
  const BadEnding := Scene("bad_ending", "Caught!", 25, [], true, Some(Bad))
  const NeutralEnding := Scene("neutral_ending", "Narrow Escape", 20, [], true, Some(Neutral))

  /** The heist film's scenes, keyed by id. */
  const InteractiveScenes: map<string, Scene> := map[
    "intro" := IntroScene,
    "stealth_path" := StealthPath,
    "direct_path" := DirectPath,
    "vault_access" := VaultAccess,
    "alarm_triggered" := AlarmTriggered,
    "security_check" := SecurityCheck,
    "good_ending" := GoodEnding,
    "bad_ending" := BadEnding,
    "neutral_ending" := NeutralEnding]

  /**
   * What the player silently relies on but never checks: the table has an
   * `intro`, every scene is stored under its own id, every choice leads to a
   * scene of the table, and a scene is an ending exactly when it offers no
   * choices and exactly when it has an ending type.
   */
  ghost predicate WellFormed(g: map<string, Scene>)
  {
    "intro" in g &&
    (forall k :: k in g ==> g[k].id == k) &&
    (forall k, i :: k in g && 0 <= i < |g[k].choices| ==> g[k].choices[i].nextScene in g) &&
    (forall k :: k in g ==> (g[k].choices == [] <==> g[k].isEnding)) &&
    (forall k :: k in g ==> (g[k].isEnding <==> g[k].endingType.Some?))
  }

  /** The heist film's table is well formed. */
  lemma SceneTableWellFormed()
    ensures WellFormed(InteractiveScenes)
  {
    var g := InteractiveScenes;
    forall k | k in g
      ensures g[k].id == k
      ensures forall i :: 0 <= i < |g[k].choices| ==> g[k].choices[i].nextScene in g
      ensures g[k].choices == [] <==> g[k].isEnding
      ensures g[k].isEnding <==> g[k].endingType.Some?
    {
      TableEntry(k);
    }
  }

  /** Each key of the table is one of the nine scenes, stored under its own id. */
  lemma TableEntry(k: string)
    requires k in InteractiveScenes
    ensures var s := InteractiveScenes[k];
      s.id == k &&
      (forall i :: 0 <= i < |s.choices| ==> s.choices[i].nextScene in InteractiveScenes) &&
      (s.choices == [] <==> s.isEnding) && (s.isEnding <==> s.endingType.Some?)
  {
    var g := InteractiveScenes;
    if k == "intro" { assert g[k] == IntroScene; }
    else if k == "stealth_path" { assert g[k] == StealthPath; }
    else if k == "direct_path" { assert g[k] == DirectPath; }
    else if k == "vault_access" { assert g[k] == VaultAccess; }
    else if k == "alarm_triggered" { assert g[k] == AlarmTriggered; }
    else if k == "security_check" { assert g[k] == SecurityCheck; }
    else if k == "good_ending" { assert g[k] == GoodEnding; }
    else if k == "bad_ending" { assert g[k] == BadEnding; }
    else { assert g[k] == NeutralEnding; }
  }

  /** `currentScene.choices.find(c => c.id === choiceId)`. */
  function FindChoice(scene: Scene, choiceId: string): (r: Option<Choice>)
    ensures r.Some? ==> r.value in scene.choices && r.value.id == choiceId
    ensures r.None? <==> forall i :: 0 <= i < |scene.choices| ==> scene.choices[i].id != choiceId
  {
    Find(scene.choices, (c: Choice) => c.id == choiceId)
  }

  /** `interactiveScenes[id]`, which is `undefined` for a missing key. */
  function Lookup(g: map<string, Scene>, id: string): (r: Option<Scene>)
    ensures r.Some? <==> id in g
    ensures r.Some? ==> r.value == g[id]
  {
    if id in g then Some(g[id]) else None
  }

  // ---------------------------------------------------------------------
  // Ending texts

  const GoodMessage := "\U{F8FF}\U{FC}\U{E9}\U{E2} Congratulations! You achieved the perfect heist!"
  const BadMessage := "\U{F8FF}\U{FC}\U{ED}\U{2022} Mission failed! Better luck next time."
  const NeutralMessage := "\U{F8FF}\U{FC}\U{F2}\U{EA} Not the best outcome, but you survived!"

  /** `getEndingMessage()`: one fixed text per ending type, empty unless the current scene is an ending. */
  function EndingMessage(current: Option<Scene>): (r: string)
    ensures r != "" <==> current.Some? && current.value.isEnding && current.value.endingType.Some?
  {
    if current.None? || !current.value.isEnding then ""
    else match current.value.endingType
      case None => ""
      case Some(Good) => GoodMessage
      case Some(Bad) => BadMessage
      case Some(Neutral) => NeutralMessage
  }

  /** `getEndingColor()`: one fixed class per ending type, empty unless the current scene is an ending. */
  function EndingColor(current: Option<Scene>): (r: string)
    ensures r != "" <==> current.Some? && current.value.isEnding && current.value.endingType.Some?
  {
    if current.None? || !current.value.isEnding then ""
    else match current.value.endingType
      case None => ""
      case Some(Good) => "text-green-400"
      case Some(Bad) => "text-red-400"
      case Some(Neutral) => "text-yellow-400"
  }

  /**
   * For two ending scenes, the message (and likewise the colour) is the same
   * exactly when the ending type is the same: the texts depend on the type
   * alone and tell the three outcomes apart.
   */
  lemma EndingTextsFollowType(a: Scene, b: Scene)
    requires a.isEnding && a.endingType.Some? && b.isEnding && b.endingType.Some?
    ensures EndingMessage(Some(a)) == EndingMessage(Some(b)) <==> a.endingType == b.endingType
    ensures EndingColor(Some(a)) == EndingColor(Some(b)) <==> a.endingType == b.endingType
  {
    assert |GoodMessage| == 53 && |BadMessage| == 43 && |NeutralMessage| == 44;
    assert |"text-green-400"| == 14 && |"text-red-400"| == 12 && |"text-yellow-400"| == 15;
  }

  /** Every ending of the heist film has a message and a colour; no other scene has either. */
  lemma TableEndingTexts(k: string)
    requires k in InteractiveScenes
    ensures EndingMessage(Some(InteractiveScenes[k])) != "" <==> InteractiveScenes[k].isEnding
    ensures EndingColor(Some(InteractiveScenes[k])) != "" <==> InteractiveScenes[k].isEnding
  {
    SceneTableWellFormed();
  }

  // ---------------------------------------------------------------------
  // Session state and events

  datatype SessionState = SessionState(
    currentScene: Option<Scene>,
    isPlaying: bool,
    showChoices: bool,
    timeLeft: nat,
    selectedChoice: Option<string>,
    sceneHistory: seq<string>,
    userChoices: seq<ChoiceRecord>,
    /** Targets of the scheduled 1-second transition timeouts, oldest first. */
    pendingTransitions: seq<string>,
    /** The choice-window timeout of the current scene is armed. */
    windowArmed: bool,
    /** The number of countdown intervals still running. */
    countdowns: nat)

  /** `!selectedChoice`: no selection, or the empty (falsy) id. */
  predicate NoSelection(selected: Option<string>)
  {
    selected.None? || selected.value == ""
  }

  /**
   * The choice-window effect runs again only when `currentScene` changes;
   * it then cancels the old timeout and arms a new one unless the new scene
   * is an ending. The source compares scene objects by identity and
   * rebuilds the scene table on every render, so every scene change re-arms;
   * comparing values here differs only when a transition lands on the scene
   * already shown, which the timing (a choice window of at least five
   * seconds, a one-second transition) does not produce.
   */
  function Rearm(before: Option<Scene>, after: Option<Scene>, armed: bool): (r: bool)
    ensures r ==> after == before || (after.Some? && !after.value.isEnding)
  {
    if after == before then armed else after.Some? && !after.value.isEnding
  }

  /** The state right after mounting: the `intro` scene and history `['intro']`. */
  function Mount(g: map<string, Scene>): (st: SessionState)
    ensures st.sceneHistory == ["intro"] && st.userChoices == [] && st.pendingTransitions == []
  {
    var intro := Lookup(g, "intro");
    SessionState(intro, false, false, 10, None, ["intro"], [], [], Rearm(None, intro, false), 0)
  }

  /** `handleChoiceSelect(choiceId)`, up to scheduling the 1-second transition. */
  function SelectChoice(st: SessionState, choiceId: string): (r: SessionState)
  {
    if st.currentScene.None? then st
    else match FindChoice(st.currentScene.value, choiceId)
      case None => st
      case Some(choice) =>
        st.(selectedChoice := Some(choiceId),
            userChoices := st.userChoices + [ChoiceRecord(st.currentScene.value.id, choiceId)],
            pendingTransitions := st.pendingTransitions + [choice.nextScene])
  }

  /** The choice-window timeout fires: choices shown, countdown restarted at 10 with a new interval. */
  function OpenWindow(st: SessionState): (r: SessionState)
  {
    if !st.windowArmed then st
    else st.(showChoices := true, timeLeft := 10, countdowns := st.countdowns + 1, windowArmed := false)
  }

  /** One running countdown interval fires. */
  function CountdownTick(st: SessionState): (r: SessionState)
  {
    if st.countdowns == 0 then st
    else if st.timeLeft <= 1 then
      var stopped := st.(countdowns := st.countdowns - 1, timeLeft := 0);
      if NoSelection(st.selectedChoice) && st.currentScene.Some? && |st.currentScene.value.choices| > 0
      then SelectChoice(stopped, st.currentScene.value.choices[0].id)
      else stopped
    else st.(timeLeft := st.timeLeft - 1)
  }

  /** The oldest scheduled transition fires; it moves to its target only when the table has it. */
  function FinishTransition(g: map<string, Scene>, st: SessionState): (r: SessionState)
  {
    if st.pendingTransitions == [] then st
    else
      var fired := st.(pendingTransitions := st.pendingTransitions[1..]);
      match Lookup(g, st.pendingTransitions[0])
      case None => fired
      case Some(next) =>
        fired.(currentScene := Some(next),
               sceneHistory := st.sceneHistory + [next.id],
               showChoices := false,
               selectedChoice := None,
               isPlaying := true,
               windowArmed := Rearm(st.currentScene, Some(next), st.windowArmed))
  }

  /** `restartMovie()`; timers already scheduled are not cancelled. */
  function Restart(g: map<string, Scene>, st: SessionState): (r: SessionState)
  {
    var intro := Lookup(g, "intro");
    st.(currentScene := intro,
        sceneHistory := ["intro"],
        userChoices := [],
        showChoices := false,
        selectedChoice := None,
        isPlaying := false,
        windowArmed := Rearm(st.currentScene, intro, st.windowArmed))
  }

  /** `goToPreviousScene()`. */
  function StepBack(g: map<string, Scene>, st: SessionState): (r: SessionState)
  {
    var h := st.sceneHistory;
    if |h| <= 1 then st
    else match Lookup(g, h[|h| - 2])
      case None => st
      case Some(previous) =>
        st.(currentScene := Some(previous),
            sceneHistory := h[..|h| - 1],
            userChoices := if st.userChoices == [] then [] else st.userChoices[..|st.userChoices| - 1],
            showChoices := false,
            selectedChoice := None,
            windowArmed := Rearm(st.currentScene, Some(previous), st.windowArmed))
  }

  /** The video's `ended` event: an ending stops playing. */
  function VideoEnded(st: SessionState): (r: SessionState)
  {
    if st.currentScene.Some? && st.currentScene.value.isEnding then st.(isPlaying := false) else st
  }

  /** The "Previous Scene" button is shown. */
  predicate ShowsPreviousButton(st: SessionState)
  {
    |st.sceneHistory| > 1 && st.currentScene.Some? && !st.currentScene.value.isEnding
  }

  /**
   * The session invariant over a well-formed table: the history is non-empty
   * and lies in the table, its last id names the current scene, every
   * scheduled transition leads into the table, each logged choice accounts
   * for one history step or one scheduled transition, and a selection is
   * only pending while a transition is.
   */
  ghost predicate Inv(g: map<string, Scene>, st: SessionState)
  {
    var h := st.sceneHistory;
    WellFormed(g) &&
    |h| >= 1 &&
    (forall i :: 0 <= i < |h| ==> h[i] in g) &&
    st.currentScene == Some(g[h[|h| - 1]]) &&
    (forall i :: 0 <= i < |st.pendingTransitions| ==> st.pendingTransitions[i] in g) &&
    |st.userChoices| + 1 == |h| + |st.pendingTransitions| &&
    (st.pendingTransitions == [] ==> st.selectedChoice.None?) &&
    (st.windowArmed ==> !st.currentScene.value.isEnding) &&
    st.timeLeft <= 10
  }

  /**
   * Under the invariant the last history entry is the current scene's id,
   * and outside a pending transition there is one logged choice fewer than
   * history entries and no selection.
   */
  lemma InvConsequences(g: map<string, Scene>, st: SessionState)
    requires Inv(g, st)
    ensures st.currentScene.Some?
    ensures st.sceneHistory[|st.sceneHistory| - 1] == st.currentScene.value.id
    ensures st.pendingTransitions == [] ==>
      |st.userChoices| == |st.sceneHistory| - 1 && st.selectedChoice.None?
  {
  }

  lemma MountEstablishesInv(g: map<string, Scene>)
    requires WellFormed(g)
    ensures Inv(g, Mount(g))
    ensures Mount(g).currentScene == Some(g["intro"]) && Mount(g).selectedChoice.None?
  {
  }

  /** A choice id the current scene does not offer (or no current scene) changes nothing. */
  lemma SelectUnknownChoiceIsNoOp(st: SessionState, choiceId: string)
    requires st.currentScene.None? ||
      forall i :: 0 <= i < |st.currentScene.value.choices| ==> st.currentScene.value.choices[i].id != choiceId
    ensures SelectChoice(st, choiceId) == st
  {
  }

  /**
   * A choice the current scene offers is selected and logged as exactly one
   * record, and its target is scheduled; the current scene and the history
   * wait for the transition.
   */
  lemma SelectKnownChoice(st: SessionState, choiceId: string, i: nat)
    requires st.currentScene.Some? && i < |st.currentScene.value.choices|
    requires st.currentScene.value.choices[i].id == choiceId
    ensures var r := SelectChoice(st, choiceId);
      r.selectedChoice == Some(choiceId) &&
      r.userChoices == st.userChoices + [ChoiceRecord(st.currentScene.value.id, choiceId)] &&
      |r.pendingTransitions| == |st.pendingTransitions| + 1 &&
      r.pendingTransitions[..|st.pendingTransitions|] == st.pendingTransitions &&
      ((forall j :: 0 <= j < i ==> st.currentScene.value.choices[j].id != choiceId) ==>
        r.pendingTransitions[|st.pendingTransitions|] == st.currentScene.value.choices[i].nextScene) &&
      r.currentScene == st.currentScene && r.sceneHistory == st.sceneHistory
  {
    var r := SelectChoice(st, choiceId);
    var choice := FindChoice(st.currentScene.value, choiceId).value;
    assert r.pendingTransitions[..|st.pendingTransitions|] == st.pendingTransitions;
  }

  lemma SelectPreservesInv(g: map<string, Scene>, st: SessionState, choiceId: string)
    requires Inv(g, st)
    ensures Inv(g, SelectChoice(st, choiceId))
  {
    var r := SelectChoice(st, choiceId);
    var cur := st.currentScene.value;
    match FindChoice(cur, choiceId)
    case None =>
    case Some(choice) =>
      var i :| 0 <= i < |cur.choices| && cur.choices[i] == choice;
      var k := st.sceneHistory[|st.sceneHistory| - 1];
      assert cur.choices[i].nextScene in g;
      AppendKeepsKeys(st.pendingTransitions, choice.nextScene, g);
      assert r.pendingTransitions == st.pendingTransitions + [choice.nextScene];
  }

  /** Appending a key of `g` to keys of `g` keeps them keys of `g`. */
  lemma AppendKeepsKeys(ks: seq<string>, k: string, g: map<string, Scene>)
    requires forall i :: 0 <= i < |ks| ==> ks[i] in g
    requires k in g
    ensures forall i :: 0 <= i < |ks + [k]| ==> (ks + [k])[i] in g
  {
  }

  /**
   * When the countdown's last tick finds no selection and a scene with
   * choices, the first declared choice is selected and logged; the interval
   * stops and the countdown shows 0.
   */
  lemma ExpirySelectsFirstChoice(st: SessionState)
    requires st.countdowns > 0 && st.timeLeft <= 1 && NoSelection(st.selectedChoice)
    requires st.currentScene.Some? && st.currentScene.value.choices != []
    ensures var r := CountdownTick(st);
      var first := st.currentScene.value.choices[0];
      r.timeLeft == 0 && r.countdowns == st.countdowns - 1 &&
      r.selectedChoice == Some(first.id) &&
      r.userChoices == st.userChoices + [ChoiceRecord(st.currentScene.value.id, first.id)] &&
      r.pendingTransitions == st.pendingTransitions + [first.nextScene] &&
      r.currentScene == st.currentScene && r.sceneHistory == st.sceneHistory
  {
    var first := st.currentScene.value.choices[0];
    assert FindChoice(st.currentScene.value, first.id) == Some(first);
  }

  /** A tick before the last one only counts down; a tick with a selection made never selects. */
  lemma TickWithoutExpiry(st: SessionState)
    requires st.countdowns > 0
    ensures st.timeLeft > 1 ==> CountdownTick(st) == st.(timeLeft := st.timeLeft - 1)
    ensures st.timeLeft <= 1 && !NoSelection(st.selectedChoice) ==>
      CountdownTick(st) == st.(countdowns := st.countdowns - 1, timeLeft := 0)
  {
  }

  lemma TickPreservesInv(g: map<string, Scene>, st: SessionState)
    requires Inv(g, st)
    ensures Inv(g, CountdownTick(st))
  {
    if st.countdowns > 0 && st.timeLeft <= 1 {
      var stopped := st.(countdowns := st.countdowns - 1, timeLeft := 0);
      assert Inv(g, stopped);
      if NoSelection(st.selectedChoice) && |st.currentScene.value.choices| > 0 {
        SelectPreservesInv(g, stopped, st.currentScene.value.choices[0].id);
      }
    }
  }

  lemma OpenWindowPreservesInv(g: map<string, Scene>, st: SessionState)
    requires Inv(g, st)
    ensures Inv(g, OpenWindow(st))
    ensures st.windowArmed ==> OpenWindow(st).showChoices && OpenWindow(st).timeLeft == 10
  {
  }

  /**
   * A completed transition makes the chosen scene current, appends its id
   * to the history, hides the choices, clears the selection and plays; the
   * choice log is left as it is.
   */
  lemma FinishTransitionMoves(g: map<string, Scene>, st: SessionState)
    requires Inv(g, st) && st.pendingTransitions != []
    ensures var r := FinishTransition(g, st);
      var target := st.pendingTransitions[0];
      r.currentScene == Some(g[target]) &&
      r.sceneHistory == st.sceneHistory + [target] &&
      !r.showChoices && r.selectedChoice.None? && r.isPlaying &&
      r.userChoices == st.userChoices &&
      r.pendingTransitions == st.pendingTransitions[1..]
  {
    assert st.pendingTransitions[0] in g;
  }

  lemma FinishTransitionPreservesInv(g: map<string, Scene>, st: SessionState)
    requires Inv(g, st)
    ensures Inv(g, FinishTransition(g, st))
  {
    if st.pendingTransitions != [] {
      var r := FinishTransition(g, st);
      assert st.pendingTransitions[0] in g;
      forall i | 0 <= i < |r.sceneHistory| ensures r.sceneHistory[i] in g {
        if i < |st.sceneHistory| {
          assert r.sceneHistory[i] == st.sceneHistory[i];
        }
      }
      forall i | 0 <= i < |r.pendingTransitions| ensures r.pendingTransitions[i] in g {
        assert r.pendingTransitions[i] == st.pendingTransitions[i + 1];
      }
    }
  }

  /**
   * Restarting always yields the `intro` scene, history `['intro']`, an
   * empty choice log, no selection, hidden choices and a paused video; the
   * invariant survives it when no transition is still scheduled.
   */
  lemma RestartResets(g: map<string, Scene>, st: SessionState)
    ensures var r := Restart(g, st);
      r.currentScene == Lookup(g, "intro") && r.sceneHistory == ["intro"] && r.userChoices == [] &&
      r.selectedChoice.None? && !r.showChoices && !r.isPlaying
    ensures Inv(g, st) && st.pendingTransitions == [] ==> Inv(g, Restart(g, st))
  {
  }

  /** With a single history entry, stepping back does nothing. */
  lemma PreviousAtStartIsNoOp(g: map<string, Scene>, st: SessionState)
    requires |st.sceneHistory| <= 1
    ensures StepBack(g, st) == st
  {
  }

  /**
   * Otherwise it drops the last entry of the history and of the choice log,
   * and the scene named by the new last entry becomes current.
   */
  lemma PreviousStepsBack(g: map<string, Scene>, st: SessionState)
    requires Inv(g, st) && |st.sceneHistory| > 1
    ensures var r := StepBack(g, st);
      r.sceneHistory == st.sceneHistory[..|st.sceneHistory| - 1] &&
      r.userChoices == st.userChoices[..|st.userChoices| - 1] &&
      r.currentScene == Some(g[r.sceneHistory[|r.sceneHistory| - 1]]) &&
      !r.showChoices && r.selectedChoice.None?
    ensures Inv(g, StepBack(g, st))
  {
    assert st.sceneHistory[|st.sceneHistory| - 2] in g;
  }

  lemma VideoEndedPreservesInv(g: map<string, Scene>, st: SessionState)
    requires Inv(g, st)
    ensures Inv(g, VideoEnded(st))
    ensures st.currentScene.value.isEnding ==> VideoEnded(st) == st.(isPlaying := false)
    ensures !st.currentScene.value.isEnding ==> VideoEnded(st) == st
  {
  }

  // ---------------------------------------------------------------------
  // Runs of events

  datatype Event =
    | SelectEvent(choiceId: string)
    | WindowOpens
    | TickEvent
    | TransitionCompletes
    | RestartEvent
    | PreviousEvent
    | VideoEndedEvent

  function Step(g: map<string, Scene>, st: SessionState, e: Event): (r: SessionState)
  {
    match e
    case SelectEvent(id) => SelectChoice(st, id)
    case WindowOpens => OpenWindow(st)
    case TickEvent => CountdownTick(st)
    case TransitionCompletes => FinishTransition(g, st)
    case RestartEvent => Restart(g, st)
    case PreviousEvent => StepBack(g, st)
    case VideoEndedEvent => VideoEnded(st)
  }

  function Run(g: map<string, Scene>, st: SessionState, events: seq<Event>): (r: SessionState)
    decreases |events|
  {
    if events == [] then st else Run(g, Step(g, st, events[0]), events[1..])
  }

  /** Along the run, every restart happens with no transition scheduled (the restart button sits on the ending screen). */
  ghost predicate RestartsSettled(g: map<string, Scene>, st: SessionState, events: seq<Event>)
    decreases |events|
  {
    events == [] ||
    ((events[0].RestartEvent? ==> st.pendingTransitions == []) &&
     RestartsSettled(g, Step(g, st, events[0]), events[1..]))
  }

  lemma StepPreservesInv(g: map<string, Scene>, st: SessionState, e: Event)
    requires Inv(g, st)
    requires e.RestartEvent? ==> st.pendingTransitions == []
    ensures Inv(g, Step(g, st, e))
  {
    match e
    case SelectEvent(id) => SelectPreservesInv(g, st, id);
    case WindowOpens => OpenWindowPreservesInv(g, st);
    case TickEvent => TickPreservesInv(g, st);
    case TransitionCompletes => FinishTransitionPreservesInv(g, st);
    case RestartEvent => RestartResets(g, st);
    case PreviousEvent =>
      if |st.sceneHistory| > 1 {
        PreviousStepsBack(g, st);
      }
    case VideoEndedEvent => VideoEndedPreservesInv(g, st);
  }

  /**
   * From the mounted state, after any run of events, the last history entry
   * is the current scene's id, and outside a pending transition the choice
   * log is one shorter than the history.
   */
  lemma {:induction false} RunKeepsInv(g: map<string, Scene>, st: SessionState, events: seq<Event>)
    requires Inv(g, st) && RestartsSettled(g, st, events)
    ensures Inv(g, Run(g, st, events))
    decreases |events|
  {
    if events != [] {
      StepPreservesInv(g, st, events[0]);
      RunKeepsInv(g, Step(g, st, events[0]), events[1..]);
    }
  }

  lemma FromMountLastIsCurrent(events: seq<Event>)
    requires RestartsSettled(InteractiveScenes, Mount(InteractiveScenes), events)
    ensures var r := Run(InteractiveScenes, Mount(InteractiveScenes), events);
      r.currentScene.Some? && |r.sceneHistory| >= 1 &&
      r.sceneHistory[|r.sceneHistory| - 1] == r.currentScene.value.id &&
      (r.pendingTransitions == [] ==> |r.userChoices| == |r.sceneHistory| - 1)
  {
    SceneTableWellFormed();
    FromMountKeepsInv(InteractiveScenes, events);
  }

  lemma FromMountKeepsInv(g: map<string, Scene>, events: seq<Event>)
    requires WellFormed(g) && RestartsSettled(g, Mount(g), events)
    ensures var r := Run(g, Mount(g), events);
      r.currentScene.Some? && |r.sceneHistory| >= 1 &&
      r.sceneHistory[|r.sceneHistory| - 1] == r.currentScene.value.id &&
      (r.pendingTransitions == [] ==> |r.userChoices| == |r.sceneHistory| - 1)
  {
    MountEstablishesInv(g);
    RunKeepsInv(g, Mount(g), events);
    InvConsequences(g, Run(g, Mount(g), events));
  }

  /**
   * The player never checks the table: in a table whose only choice leads to
   * a missing scene, the choice is logged but no transition happens, so the
   * log outgrows the history and the selection stays pending for good.
   */
  lemma DanglingTargetLogsWithoutMoving()
    ensures var g := map["intro" := Scene("intro", "Start", 20, [Choice("go", "Go", "missing")], false, None)];
      var r := FinishTransition(g, SelectChoice(Mount(g), "go"));
      |r.userChoices| == 1 && r.sceneHistory == ["intro"] && r.currentScene == Some(g["intro"]) &&
      r.pendingTransitions == [] && r.selectedChoice == Some("go") && !WellFormed(g)
  {
    var g := map["intro" := Scene("intro", "Start", 20, [Choice("go", "Go", "missing")], false, None)];
    assert FindChoice(g["intro"], "go") == Some(Choice("go", "Go", "missing"));
    assert g["intro"].choices[0].nextScene !in g;
  }

  // ---------------------------------------------------------------------
  // The player component

  class Session {
    const graph: map<string, Scene>
    var currentScene: Option<Scene>
    var isPlaying: bool
    var showChoices: bool
    var timeLeft: nat
    var selectedChoice: Option<string>
    var sceneHistory: seq<string>
    var userChoices: seq<ChoiceRecord>
    var pendingTransitions: seq<string>
    var windowArmed: bool
    var countdowns: nat

    function State(): SessionState
      reads this
    {
      SessionState(currentScene, isPlaying, showChoices, timeLeft, selectedChoice,
                   sceneHistory, userChoices, pendingTransitions, windowArmed, countdowns)
    }

    ghost predicate Valid()
      reads this
    {
      Inv(graph, State())
    }

    /** Mounting: the `intro` scene becomes current and the history is `['intro']`. */
    constructor (g: map<string, Scene>)
      ensures graph == g && State() == Mount(g)
      ensures WellFormed(g) ==> Valid()
    {
      graph := g;
      isPlaying := false;
      showChoices := false;
      timeLeft := 10;
      selectedChoice := None;
      userChoices := [];
      pendingTransitions := [];
      countdowns := 0;
      var intro := Lookup(g, "intro");
      currentScene := intro;
      sceneHistory := ["intro"];
      windowArmed := Rearm(None, intro, false);
      new;
      if WellFormed(g) {
        MountEstablishesInv(g);
      }
    }

    method HandleChoiceSelect(choiceId: string)
      modifies this
      ensures State() == SelectChoice(old(State()), choiceId)
      ensures old(Valid()) ==> Valid()
    {
      ghost var before := State();
      if currentScene.Some? {
        var k := FindIndex(currentScene.value.choices, (c: Choice) => c.id == choiceId);
        if k.Some? {
          var choice := currentScene.value.choices[k.value];
          assert FindChoice(before.currentScene.value, choiceId) == Some(choice);
          selectedChoice, userChoices, pendingTransitions :=
            Some(choiceId), userChoices + [ChoiceRecord(currentScene.value.id, choiceId)],
            pendingTransitions + [choice.nextScene];
        }
      }
      assert State() == SelectChoice(before, choiceId);
      if Inv(graph, before) {
        SelectPreservesInv(graph, before, choiceId);
      }
    }

    method OpenChoiceWindow()
      modifies this
      ensures State() == OpenWindow(old(State()))
      ensures old(Valid()) ==> Valid()
    {
      if windowArmed {
        showChoices, timeLeft, countdowns, windowArmed := true, 10, countdowns + 1, false;
      }
    }

    method Tick()
      modifies this
      ensures State() == CountdownTick(old(State()))
      ensures old(Valid()) ==> Valid()
    {
      ghost var before := State();
      if countdowns > 0 {
        if timeLeft <= 1 {
          countdowns, timeLeft := countdowns - 1, 0;
          assert State() == before.(countdowns := before.countdowns - 1, timeLeft := 0);
          if NoSelection(selectedChoice) && currentScene.Some? && |currentScene.value.choices| > 0 {
            HandleChoiceSelect(currentScene.value.choices[0].id);
          }
        } else {
          timeLeft := timeLeft - 1;
        }
      }
      assert State() == CountdownTick(before);
      if Inv(graph, before) {
        TickPreservesInv(graph, before);
      }
    }

    method CompleteTransition()
      modifies this
      ensures State() == FinishTransition(graph, old(State()))
      ensures old(Valid()) ==> Valid()
    {
      ghost var before := State();
      if pendingTransitions != [] {
        var target := pendingTransitions[0];
        if target in graph {
          var next := graph[target];
          pendingTransitions, windowArmed, currentScene, sceneHistory, showChoices, selectedChoice, isPlaying :=
            pendingTransitions[1..], Rearm(currentScene, Some(next), windowArmed), Some(next),
            sceneHistory + [next.id], false, None, true;
        } else {
          pendingTransitions := pendingTransitions[1..];
        }
      }
      assert State() == FinishTransition(graph, before);
      if Inv(graph, before) {
        FinishTransitionPreservesInv(graph, before);
      }
    }

    method RestartMovie()
      modifies this
      ensures State() == Restart(graph, old(State()))
      ensures old(Valid()) && old(pendingTransitions) == [] ==> Valid()
    {
      ghost var before := State();
      var intro := Lookup(graph, "intro");
      windowArmed, currentScene, sceneHistory, userChoices, showChoices, selectedChoice, isPlaying :=
        Rearm(currentScene, intro, windowArmed), intro, ["intro"], [], false, None, false;
      assert State() == Restart(graph, before);
      RestartResets(graph, before);
    }

    method GoToPreviousScene()
      modifies this
      ensures State() == StepBack(graph, old(State()))
      ensures old(Valid()) ==> Valid()
    {
      ghost var before := State();
      if |sceneHistory| > 1 {
        var previousId := sceneHistory[|sceneHistory| - 2];
        if previousId in graph {
          var previous := graph[previousId];
          windowArmed, currentScene, sceneHistory, userChoices, showChoices, selectedChoice :=
            Rearm(currentScene, Some(previous), windowArmed), Some(previous), sceneHistory[..|sceneHistory| - 1],
            (if userChoices == [] then [] else userChoices[..|userChoices| - 1]), false, None;
        }
      }
      assert State() == StepBack(graph, before);
      if Inv(graph, before) && |before.sceneHistory| > 1 {
        PreviousStepsBack(graph, before);
      }
    }

    method HandleVideoEnded()
      modifies this
      ensures State() == VideoEnded(old(State()))
      ensures old(Valid()) ==> Valid()
    {
      if currentScene.Some? && currentScene.value.isEnding {
        isPlaying := false;
      }
    }
  }

  /** The heist film's state while the intro's countdown shows `t` seconds and nothing is chosen. */
  function Counting(t: nat): SessionState
  {
    SessionState(Some(IntroScene), false, true, t, None, ["intro"], [], [], false, 1)
  }

  lemma WindowOpensCounting()
    ensures OpenWindow(Mount(InteractiveScenes)) == Counting(10)
  {
    TableLookups();
  }

  lemma TickCountsDown(t: nat)
    requires t > 1
    ensures CountdownTick(Counting(t)) == Counting(t - 1)
  {
  }

  lemma LastTickLandsOnStealth()
    ensures var st := FinishTransition(InteractiveScenes, CountdownTick(Counting(1)));
      st.sceneHistory == ["intro", "stealth_path"] && st.userChoices == [ChoiceRecord("intro", "stealth")]
  {
    TableLookups();
    assert FindChoice(IntroScene, "stealth") == Some(IntroScene.choices[0]);
  }

  lemma TableLookups()
    ensures Lookup(InteractiveScenes, "intro") == Some(IntroScene)
    ensures Lookup(InteractiveScenes, "stealth_path") == Some(StealthPath)
  {
  }

  /**
   * The heist film left alone: the choice window opens on `intro`, the
   * countdown runs out after ten ticks, the first choice (`stealth`) is taken
   * and the transition lands on `stealth_path`.
   */
  method ExpiryScenario() returns (history: seq<string>, log: seq<ChoiceRecord>)
    ensures history == ["intro", "stealth_path"]
    ensures log == [ChoiceRecord("intro", "stealth")]
  {
    var s := new Session(InteractiveScenes);
    s.OpenChoiceWindow();
    WindowOpensCounting();
    var t := 10;
    while t > 1
      invariant 1 <= t <= 10
      invariant s.graph == InteractiveScenes && s.State() == Counting(t)
    {
      s.Tick();
      TickCountsDown(t);
      t := t - 1;
    }
    s.Tick();
    s.CompleteTransition();
    LastTickLandsOnStealth();
    history := s.sceneHistory;
    log := s.userChoices;
  }
}
