/** The `App` component's session: its five state fields, the handlers that change
    them, the phase the render derives from them, and the persisted snapshot kept in
    an abstract storage slot (the 'scoreData' key). Each handler runs to completion
    as one step, followed by the save effect when it changed a field that effect
    depends on. */
module ScoreApp {
  import opened Options
  import opened ParseInt
  import opened Totals

  /** The screen the render shows. */
  datatype Phase = ModeSelection | NameEntry | ScoreTracking

  /** What the save effect writes under 'scoreData'; draft scores are not in it. */
  datatype Snapshot = Snapshot(mode: string, playerNames: seq<string>, nameInputs: seq<string>, scores: seq<seq<int>>)

  /** Players for a mode: 4 for 'single', 2 for any other mode. */
  function PlayerCount(selectedMode: string): (n: nat)
    ensures n == 4 || n == 2
    ensures n == 4 <==> selectedMode == "single"
  {
    if selectedMode == "single" then 4 else 2
  }

  /** `Array(n).fill('')`. */
  function Blanks(n: nat): (r: seq<string>)
    ensures |r| == n && forall i :: 0 <= i < n ==> r[i] == ""
  {
    seq(n, _ => "")
  }

  /** JavaScript truthiness of the mode: null and the empty string are false. */
  predicate Truthy(mode: Option<string>)
  {
    mode.Some? && mode.value != ""
  }

  /** The shape of every snapshot the save effect writes. */
  ghost predicate SnapshotValid(snap: Snapshot)
  {
    && snap.mode != ""
    && |snap.nameInputs| == PlayerCount(snap.mode)
    && snap.playerNames == snap.nameInputs
    && forall row :: row in snap.scores ==> |row| == |snap.playerNames|
  }

  class App {
    var mode: Option<string>
    var playerNames: seq<string>
    var nameInputs: seq<string>
    var scores: seq<seq<int>>
    var newScores: seq<string>
    /** The 'scoreData' storage slot. */
    var storage: Option<Snapshot>

    /** The render's choice of screen: mode selection while the mode is falsy,
        name entry while no names are committed, the score table otherwise. */
    function CurrentPhase(): (p: Phase)
      reads this
      ensures p == ModeSelection <==> mode == None || mode == Some("")
      ensures p == ScoreTracking <==> ShouldSave()
    {
      if !Truthy(mode) then ModeSelection
      else if |playerNames| == 0 then NameEntry
      else ScoreTracking
    }

    /** The guard of the save effect. */
    predicate ShouldSave()
      reads this
    {
      Truthy(mode) && |playerNames| > 0
    }

    function CurrentSnapshot(): Snapshot
      reads this
      requires mode.Some?
    {
      Snapshot(mode.value, playerNames, nameInputs, scores)
    }

    /** The shape the handlers keep the five state fields in. */
    ghost predicate SessionValid()
      reads this
    {
      && (mode.None? ==> nameInputs == [] && newScores == [])
      && (mode.Some? ==> |nameInputs| == PlayerCount(mode.value) && |newScores| == |nameInputs|)
      && (!Truthy(mode) ==> playerNames == [])
      && (playerNames != [] ==> playerNames == nameInputs)
      && (playerNames == [] ==> scores == [])
      && (forall row :: row in scores ==> |row| == |playerNames|)
    }

    /** The session is well formed and the storage slot holds exactly the current
        snapshot once names are committed, and nothing before. */
    ghost predicate Valid()
      reads this
    {
      SessionValid() && storage == (if ShouldSave() then Some(CurrentSnapshot()) else None)
    }

    /** Mounting the component over the storage slot: the initial empty state and
        the first run of the save effect, which finds no mode and leaves the slot
        alone; then the load effect, which adopts a stored snapshot and gives it
        blank drafts, and the save effect once more for the adopted fields. */
    constructor Mount(stored: Option<Snapshot>)
      requires stored.Some? ==> SnapshotValid(stored.value)
      ensures Valid()
      ensures storage == stored
      ensures stored.None? ==>
        mode == None && playerNames == [] && nameInputs == [] && scores == [] && newScores == []
      ensures stored.Some? ==>
        && mode == Some(stored.value.mode)
        && playerNames == stored.value.playerNames
        && nameInputs == stored.value.nameInputs
        && scores == stored.value.scores
        && newScores == Blanks(|stored.value.playerNames|)
    {
      mode := None;
      playerNames := [];
      nameInputs := [];
      scores := [];
      newScores := [];
      storage := stored;
      new;
      SaveEffect();
      if stored.Some? {
        var snap := stored.value;
        mode := Some(snap.mode);
        playerNames := snap.playerNames;
        nameInputs := snap.nameInputs;
        scores := snap.scores;
        newScores := Blanks(|snap.playerNames|);
        SaveEffect();
      }
    }

    /** The save effect: writes the snapshot when a mode is set and names are committed. */
    method SaveEffect()
      modifies this`storage
      ensures storage == if ShouldSave() then Some(CurrentSnapshot()) else old(storage)
      ensures SessionValid() && (ShouldSave() || old(storage) == None) ==> Valid()
    {
      if ShouldSave() {
        storage := Some(CurrentSnapshot());
      }
    }

    /** `handleModeSelect`: sets the mode and one blank name and one blank score
        draft per player. */
    method HandleModeSelect(selectedMode: string)
      requires Valid() && CurrentPhase() == ModeSelection
      modifies this
      ensures Valid()
      ensures mode == Some(selectedMode)
      ensures nameInputs == Blanks(PlayerCount(selectedMode))
      ensures newScores == Blanks(PlayerCount(selectedMode))
      ensures playerNames == old(playerNames) == [] && scores == old(scores) == []
      ensures storage == old(storage) == None
      ensures CurrentPhase() == if selectedMode == "" then ModeSelection else NameEntry
    {
      mode := Some(selectedMode);
      var numPlayers := if selectedMode == "single" then 4 else 2;
      nameInputs := Blanks(numPlayers);
      newScores := Blanks(numPlayers);
      SaveEffect();
    }

    /** `handleNameChange`: overwrites one name draft. */
    method HandleNameChange(index: nat, name: string)
      requires Valid() && CurrentPhase() == NameEntry
      requires index < |nameInputs|
      modifies this
      ensures Valid()
      ensures |nameInputs| == |old(nameInputs)| && nameInputs[index] == name
      ensures forall k :: 0 <= k < |nameInputs| && k != index ==> nameInputs[k] == old(nameInputs)[k]
      ensures mode == old(mode) && playerNames == old(playerNames) && scores == old(scores)
      ensures newScores == old(newScores) && storage == old(storage)
      ensures CurrentPhase() == NameEntry
    {
      var updatedNames := nameInputs[index := name];
      nameInputs := updatedNames;
      SaveEffect();
    }

    /** `handleContinue`: commits the name drafts as they are (empty or repeated
        names included), which opens the score table and saves the session. */
    method HandleContinue()
      requires Valid() && CurrentPhase() == NameEntry
      modifies this
      ensures Valid()
      ensures playerNames == old(nameInputs)
      ensures mode == old(mode) && nameInputs == old(nameInputs)
      ensures scores == old(scores) == [] && newScores == old(newScores)
      ensures CurrentPhase() == ScoreTracking
      ensures storage == Some(CurrentSnapshot())
    {
      playerNames := nameInputs;
      SaveEffect();
    }

    /** `handleScoreChange`: overwrites one score draft, kept as raw text. No saved
        field changes, so the save effect does not run. */
    method HandleScoreChange(index: nat, value: string)
      requires Valid() && CurrentPhase() == ScoreTracking
      requires index < |newScores|
      modifies this
      ensures Valid()
      ensures |newScores| == |old(newScores)| && newScores[index] == value
      ensures forall k :: 0 <= k < |newScores| && k != index ==> newScores[k] == old(newScores)[k]
      ensures mode == old(mode) && playerNames == old(playerNames)
      ensures nameInputs == old(nameInputs) && scores == old(scores) && storage == old(storage)
    {
      var updatedScores := newScores[index := value];
      newScores := updatedScores;
    }

    /** `handleAddScores`: appends one round, parsed from the drafts with 0 for a
        draft that holds no number, clears the drafts and saves the session. */
    method HandleAddScores()
      requires Valid() && CurrentPhase() == ScoreTracking
      modifies this
      ensures Valid()
      ensures |scores| == |old(scores)| + 1 && scores[..|old(scores)|] == old(scores)
      ensures scores[|old(scores)|] == ParseRow(old(newScores))
      ensures |scores[|old(scores)|]| == |playerNames|
      ensures newScores == Blanks(|playerNames|)
      ensures mode == old(mode) && playerNames == old(playerNames) && nameInputs == old(nameInputs)
      ensures storage == Some(CurrentSnapshot())
      ensures TotalsOf(scores, |playerNames|)
           == AddRow(TotalsOf(old(scores), |playerNames|), ParseRow(old(newScores)))
    {
      var parsedScores := ParseRow(newScores);
      TotalsAppend(scores, parsedScores, |playerNames|);
      scores := scores + [parsedScores];
      newScores := Blanks(|playerNames|);
      SaveEffect();
    }

    /** `handleReset`: removes the stored snapshot and empties every field, which
        brings back the mode selection screen. */
    method HandleReset()
      requires Valid()
      modifies this
      ensures Valid()
      ensures mode == None && playerNames == [] && nameInputs == [] && scores == [] && newScores == []
      ensures storage == None
      ensures CurrentPhase() == ModeSelection
    {
      storage := None;
      mode := None;
      playerNames := [];
      nameInputs := [];
      scores := [];
      newScores := [];
      SaveEffect();
    }

    /** What a valid session keeps in storage is a snapshot the load effect can adopt. */
    lemma StoredSnapshotValid()
      requires Valid()
      ensures storage.Some? ==> SnapshotValid(storage.value)
      ensures storage.Some? <==> CurrentPhase() == ScoreTracking
    {
    }
  }

  /** Reloading the page during score tracking brings back the mode, the names and
      every committed round; only the score drafts come back blank. */
  method ReloadRestoresSession(app: App) returns (reloaded: App)
    requires app.Valid() && app.CurrentPhase() == ScoreTracking
    ensures reloaded.Valid()
    ensures reloaded.mode == app.mode && reloaded.playerNames == app.playerNames
    ensures reloaded.nameInputs == app.nameInputs && reloaded.scores == app.scores
    ensures reloaded.newScores == Blanks(|app.playerNames|)
    ensures reloaded.CurrentPhase() == ScoreTracking
  {
    app.StoredSnapshotValid();
    reloaded := new App.Mount(app.storage);
  }

  /** Reloading the page before the names are committed loses the mode and the name
      drafts: nothing was saved yet. */
  method ReloadBeforeNamesIsEmpty(app: App) returns (reloaded: App)
    requires app.Valid() && app.CurrentPhase() != ScoreTracking
    ensures reloaded.Valid()
    ensures reloaded.mode == None && reloaded.playerNames == [] && reloaded.nameInputs == []
    ensures reloaded.scores == [] && reloaded.newScores == []
    ensures reloaded.CurrentPhase() == ModeSelection
  {
    app.StoredSnapshotValid();
    reloaded := new App.Mount(app.storage);
  }

  /** After a reset, a reload starts an empty session at mode selection. */
  method ResetThenReload(app: App) returns (reloaded: App)
    requires app.Valid()
    modifies app
    ensures reloaded.Valid() && reloaded.CurrentPhase() == ModeSelection
    ensures reloaded.mode == None && reloaded.playerNames == [] && reloaded.scores == []
  {
    app.HandleReset();
    reloaded := ReloadBeforeNamesIsEmpty(app);
  }
}
