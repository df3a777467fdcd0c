/**
 From window visibility to app foreground/background reports
 (services/common/src/bundle_active_window_visibility_manager.cpp).
 The manager keeps one map from ability key to the ability's windows and one map of visible bundles.
 */
module WindowVisibility {

  datatype Option<T> = None | Some(value: T)

  datatype WindowInfo = WindowInfo(
    bundleName: string, abilityName: string, moduleName: string, uid: int,
    windowId: nat, isVisible: bool, isSystem: bool)

  datatype AbilityWindows = AbilityWindows(
    bundleName: string, abilityName: string, moduleName: string, uid: int, windows: map<nat, bool>)

  datatype Report = Report(bundleName: string, abilityName: string, moduleName: string, uid: int, toForeground: bool)

  function ToString(n: int): string
    decreases if n < 0 then 1 - n else n
  {
    if n < 0 then "-" + ToString(-n)
    else if n < 10 then [['0', '1', '2', '3', '4', '5', '6', '7', '8', '9'][n]]
    else ToString(n / 10) + ToString(n % 10)
  }

  function GenerateAbilityKey(uid: int, abilityName: string, moduleName: string): string {
    ToString(uid) + "|" + abilityName + "|" + moduleName
  }

  function KeyOf(w: WindowInfo): string {
    GenerateAbilityKey(w.uid, w.abilityName, w.moduleName)
  }

  predicate Accepted(info: Option<WindowInfo>) {
    && info.Some?
    && info.value.uid > 0 && info.value.bundleName != ""
    && !info.value.isSystem && info.value.abilityName != ""
  }

  function AcceptedOf(infos: seq<Option<WindowInfo>>): seq<WindowInfo> {
    if infos == [] then []
    else AcceptedOf(infos[..|infos| - 1]) + (if Accepted(infos[|infos| - 1]) then [infos[|infos| - 1].value] else [])
  }

  lemma AcceptedSnoc(infos: seq<Option<WindowInfo>>, i: nat)
    requires i < |infos|
    ensures AcceptedOf(infos[..i + 1])
         == AcceptedOf(infos[..i]) + (if Accepted(infos[i]) then [infos[i].value] else [])
  {
    assert infos[..i + 1][..i] == infos[..i];
  }

  type Abilities = map<string, AbilityWindows>

  function NewAbility(w: WindowInfo): AbilityWindows {
    AbilityWindows(w.bundleName, w.abilityName, w.moduleName, w.uid, map[w.windowId := w.isVisible])
  }

  function UpdatedWindows(windows: map<nat, bool>, w: WindowInfo): map<nat, bool> {
    if w.isVisible then windows[w.windowId := true] else windows - {w.windowId}
  }

  function Recorded(abilities: Abilities, w: WindowInfo): Abilities {
    var key := KeyOf(w);
    if key !in abilities then abilities[key := NewAbility(w)]
    else
      var info := abilities[key];
      var windows := UpdatedWindows(info.windows, w);
      var updated := abilities[key := info.(windows := windows)];
      if windows == map[] then updated - {GenerateAbilityKey(info.uid, info.abilityName, info.moduleName)} else updated
  }

  function RecordedAll(abilities: Abilities, ws: seq<WindowInfo>): Abilities {
    if ws == [] then abilities else Recorded(RecordedAll(abilities, ws[..|ws| - 1]), ws[|ws| - 1])
  }

  lemma RecordedSnoc(abilities: Abilities, ws: seq<WindowInfo>, w: WindowInfo)
    ensures RecordedAll(abilities, ws + [w]) == Recorded(RecordedAll(abilities, ws), w)
  {
    assert (ws + [w])[..|ws|] == ws;
  }

  predicate AllWindowsInvisible(info: AbilityWindows) {
    forall id :: id in info.windows ==> !info.windows[id]
  }

  predicate BundleVisible(abilities: Abilities, bundleName: string) {
    exists k :: k in abilities && abilities[k].bundleName == bundleName && !AllWindowsInvisible(abilities[k])
  }

  datatype Visibility = Visibility(abilities: Abilities, apps: map<string, bool>, reports: seq<Report>)
  {
    function UpdateApp(bundleName: string, abilityName: string, moduleName: string, uid: int): Visibility {
      var was := bundleName in apps && apps[bundleName];
      var now := BundleVisible(abilities, bundleName);
      var apps' := if now then apps[bundleName := true] else apps - {bundleName};
      var report := if was == now then [] else [Report(bundleName, abilityName, moduleName, uid, now)];
      Visibility(abilities, apps', reports + report)
    }

    function UpdateApps(ws: seq<WindowInfo>): Visibility {
      if ws == [] then this
      else
        var w := ws[|ws| - 1];
        UpdateApps(ws[..|ws| - 1]).UpdateApp(w.bundleName, w.abilityName, w.moduleName, w.uid)
    }

    function Batch(infos: seq<Option<WindowInfo>>): Visibility {
      var ws := AcceptedOf(infos);
      this.(abilities := RecordedAll(abilities, ws)).UpdateApps(ws)
    }

    function Clear(bundleName: string, abilityName: string, moduleName: string, uid: int): Visibility {
      this.(abilities := abilities - {GenerateAbilityKey(uid, abilityName, moduleName)})
          .UpdateApp(bundleName, abilityName, moduleName, uid)
    }
  }

  // ----- the reference: which windows are visible according to the notifications alone -----

  datatype Notice =
    | Changed(infos: seq<Option<WindowInfo>>)
    | Cleared(bundleName: string, abilityName: string, moduleName: string, uid: int)

  type Window = (string, nat)

  function ShownAfterInfo(shown: set<Window>, w: WindowInfo): set<Window> {
    if w.isVisible then shown + {(KeyOf(w), w.windowId)} else shown - {(KeyOf(w), w.windowId)}
  }

  function ShownAfterInfos(shown: set<Window>, ws: seq<WindowInfo>): set<Window> {
    if ws == [] then shown else ShownAfterInfo(ShownAfterInfos(shown, ws[..|ws| - 1]), ws[|ws| - 1])
  }

  function Shown(notices: seq<Notice>): set<Window> {
    if notices == [] then {}
    else
      var before := Shown(notices[..|notices| - 1]);
      match notices[|notices| - 1]
      case Changed(infos) => ShownAfterInfos(before, AcceptedOf(infos))
      case Cleared(_, ability, moduleName, uid) =>
        var key := GenerateAbilityKey(uid, ability, moduleName);
        set w | w in before && w.0 != key
  }

  predicate ShownFor(shown: set<Window>, owner: string -> string, bundleName: string) {
    exists w :: w in shown && owner(w.0) == bundleName
  }

  function Run(notices: seq<Notice>): Visibility {
    if notices == [] then Visibility(map[], map[], [])
    else
      var before := Run(notices[..|notices| - 1]);
      match notices[|notices| - 1]
      case Changed(infos) => before.Batch(infos)
      case Cleared(bundle, ability, moduleName, uid) => before.Clear(bundle, ability, moduleName, uid)
  }

  function ReportsOf(reports: seq<Report>, bundleName: string): seq<bool> {
    if reports == [] then []
    else
      var r := reports[|reports| - 1];
      ReportsOf(reports[..|reports| - 1], bundleName) + (if r.bundleName == bundleName then [r.toForeground] else [])
  }

  /** Foreground first, then strictly in turn. */
  predicate Alternates(reported: seq<bool>) {
    forall i :: 0 <= i < |reported| ==> reported[i] == (i % 2 == 0)
  }

  // ----- the ability key determines the bundle -----

  predicate OwnedInfos(infos: seq<Option<WindowInfo>>, owner: string -> string) {
    forall i :: 0 <= i < |infos| && Accepted(infos[i]) ==> owner(KeyOf(infos[i].value)) == infos[i].value.bundleName
  }

  predicate Owned(notice: Notice, owner: string -> string) {
    match notice
    case Changed(infos) => OwnedInfos(infos, owner)
    case Cleared(bundle, ability, moduleName, uid) => owner(GenerateAbilityKey(uid, ability, moduleName)) == bundle
  }

  ghost predicate AbilitiesShow(abilities: Abilities, owner: string -> string, shown: set<Window>) {
    && (forall k :: k in abilities ==>
          && GenerateAbilityKey(abilities[k].uid, abilities[k].abilityName, abilities[k].moduleName) == k
          && owner(k) == abilities[k].bundleName)
    && (forall k, id :: (k, id) in shown <==>
          k in abilities && id in abilities[k].windows && abilities[k].windows[id])
  }

  lemma RecordedShows(abilities: Abilities, owner: string -> string, shown: set<Window>, w: WindowInfo)
    requires AbilitiesShow(abilities, owner, shown) && owner(KeyOf(w)) == w.bundleName
    ensures AbilitiesShow(Recorded(abilities, w), owner, ShownAfterInfo(shown, w))
  {
    var abilities', shown' := Recorded(abilities, w), ShownAfterInfo(shown, w);
    forall k, id
      ensures (k, id) in shown' <==> k in abilities' && id in abilities'[k].windows && abilities'[k].windows[id]
    {
      assert (k, id) in shown <==> k in abilities && id in abilities[k].windows && abilities[k].windows[id];
      if k == KeyOf(w) && k in abilities && UpdatedWindows(abilities[k].windows, w) == map[] {
        assert id !in UpdatedWindows(abilities[k].windows, w);
      }
    }
  }

  lemma {:induction false} RecordedAllShows(
    abilities: Abilities, owner: string -> string, shown: set<Window>, ws: seq<WindowInfo>)
    requires AbilitiesShow(abilities, owner, shown)
    requires forall w :: w in ws ==> owner(KeyOf(w)) == w.bundleName
    ensures AbilitiesShow(RecordedAll(abilities, ws), owner, ShownAfterInfos(shown, ws))
  {
    if ws == [] {
    } else {
      var init := ws[..|ws| - 1];
      RecordedAllShows(abilities, owner, shown, init);
      RecordedShows(RecordedAll(abilities, init), owner, ShownAfterInfos(shown, init), ws[|ws| - 1]);
    }
  }

  lemma {:induction false} AcceptedAreOwned(infos: seq<Option<WindowInfo>>, owner: string -> string)
    requires OwnedInfos(infos, owner)
    ensures forall w :: w in AcceptedOf(infos) ==> owner(KeyOf(w)) == w.bundleName
  {
    if infos == [] {
    } else {
      AcceptedAreOwned(infos[..|infos| - 1], owner);
    }
  }

  lemma VisibleIffShown(abilities: Abilities, owner: string -> string, shown: set<Window>, bundleName: string)
    requires AbilitiesShow(abilities, owner, shown)
    ensures BundleVisible(abilities, bundleName) <==> ShownFor(shown, owner, bundleName)
  {
    if BundleVisible(abilities, bundleName) {
      var k :| k in abilities && abilities[k].bundleName == bundleName && !AllWindowsInvisible(abilities[k]);
      var id :| id in abilities[k].windows && abilities[k].windows[id];
      assert (k, id) in shown;
    }
    if ShownFor(shown, owner, bundleName) {
      var w :| w in shown && owner(w.0) == bundleName;
      assert (w.0, w.1) in shown;
      assert !AllWindowsInvisible(abilities[w.0]);
    }
  }

  /** A bundle that no window of the batch names keeps its windows. */
  lemma {:induction false} OthersStayShown(
    owner: string -> string, shown: set<Window>, ws: seq<WindowInfo>, bundleName: string)
    requires forall w :: w in ws ==> owner(KeyOf(w)) == w.bundleName
    requires forall w :: w in ws ==> w.bundleName != bundleName
    ensures ShownFor(ShownAfterInfos(shown, ws), owner, bundleName) <==> ShownFor(shown, owner, bundleName)
  {
    if ws == [] {
    } else {
      var init := ws[..|ws| - 1];
      OthersStayShown(owner, shown, init, bundleName);
      assert owner(KeyOf(ws[|ws| - 1])) != bundleName;
    }
  }

  // ----- updating the apps -----

  function TurnOf(before: bool, after: bool): seq<bool> {
    if before == after then [] else [after]
  }

  function Named(ws: seq<WindowInfo>): set<string> {
    if ws == [] then {} else Named(ws[..|ws| - 1]) + {ws[|ws| - 1].bundleName}
  }

  /** Updating the apps of a batch: what each bundle shows, and at most one report for it. */
  lemma {:induction false} UpdateAppsEffect(v: Visibility, ws: seq<WindowInfo>, bundleName: string)
    requires forall b :: b in v.apps ==> v.apps[b]
    ensures var v' := v.UpdateApps(ws);
            && v'.abilities == v.abilities
            && (forall b :: b in v'.apps ==> v'.apps[b])
            && (bundleName in v'.apps <==>
                if bundleName in Named(ws) then BundleVisible(v.abilities, bundleName) else bundleName in v.apps)
            && ReportsOf(v'.reports, bundleName)
            == ReportsOf(v.reports, bundleName) + TurnOf(bundleName in v.apps, bundleName in v'.apps)
  {
    if ws == [] {
    } else {
      var init, w := ws[..|ws| - 1], ws[|ws| - 1];
      UpdateAppsEffect(v, init, bundleName);
      UpdateAppEffect(v.UpdateApps(init), w.bundleName, w.abilityName, w.moduleName, w.uid, bundleName);
      var b0, b1 := bundleName in v.apps, bundleName in v.UpdateApps(init).apps;
      if bundleName == w.bundleName && bundleName !in Named(init) {
        assert TurnOf(b0, b1) == [];
      } else {
        assert (bundleName in v.UpdateApps(ws).apps) == b1;
      }
    }
  }

  lemma {:induction false} NamedMembers(ws: seq<WindowInfo>, bundleName: string)
    ensures bundleName in Named(ws) <==> exists w :: w in ws && w.bundleName == bundleName
  {
    if ws == [] {
    } else {
      var init, w := ws[..|ws| - 1], ws[|ws| - 1];
      assert ws == init + [w];
      NamedMembers(init, bundleName);
      assert w in ws;
      assert forall x :: x in init ==> x in ws;
    }
  }

  lemma UpdateAppEffect(v: Visibility, bundleName: string, abilityName: string, moduleName: string, uid: int,
                        other: string)
    requires forall b :: b in v.apps ==> v.apps[b]
    ensures var v' := v.UpdateApp(bundleName, abilityName, moduleName, uid);
            && v'.abilities == v.abilities
            && (forall b :: b in v'.apps ==> v'.apps[b])
            && (other in v'.apps <==>
                if other == bundleName then BundleVisible(v.abilities, other) else other in v.apps)
            && ReportsOf(v'.reports, other)
            == ReportsOf(v.reports, other) + TurnOf(other in v.apps, other in v'.apps)
  {
    var v' := v.UpdateApp(bundleName, abilityName, moduleName, uid);
    if |v'.reports| == |v.reports| + 1 {
      assert v'.reports[..|v.reports|] == v.reports;
    } else {
      assert v'.reports == v.reports;
    }
  }

  // ----- whole runs -----

  ghost predicate Agrees(v: Visibility, owner: string -> string, shown: set<Window>) {
    && AbilitiesShow(v.abilities, owner, shown)
    && (forall b :: b in v.apps ==> v.apps[b])
    && (forall b :: b in v.apps <==> ShownFor(shown, owner, b))
  }

  lemma BatchAgrees(v: Visibility, owner: string -> string, shown: set<Window>, infos: seq<Option<WindowInfo>>)
    requires Agrees(v, owner, shown) && OwnedInfos(infos, owner)
    ensures Agrees(v.Batch(infos), owner, ShownAfterInfos(shown, AcceptedOf(infos)))
  {
    var ws := AcceptedOf(infos);
    var mid := v.(abilities := RecordedAll(v.abilities, ws));
    var shown' := ShownAfterInfos(shown, ws);
    AcceptedAreOwned(infos, owner);
    RecordedAllShows(v.abilities, owner, shown, ws);
    UpdateAppsEffect(mid, ws, "");
    forall b
      ensures b in v.Batch(infos).apps <==> ShownFor(shown', owner, b)
    {
      UpdateAppsEffect(mid, ws, b);
      VisibleIffShown(mid.abilities, owner, shown', b);
      if b !in Named(ws) {
        NamedMembers(ws, b);
        OthersStayShown(owner, shown, ws, b);
      }
    }
  }

  /** Forgetting a key takes windows only from the bundle that owns it. */
  lemma OthersKeepShown(shown: set<Window>, owner: string -> string, key: string, bundleName: string)
    requires bundleName != owner(key)
    ensures ShownFor((set w | w in shown && w.0 != key), owner, bundleName) <==> ShownFor(shown, owner, bundleName)
  {
    if ShownFor(shown, owner, bundleName) {
      var w :| w in shown && owner(w.0) == bundleName;
      assert w in (set x | x in shown && x.0 != key);
    }
  }

  lemma ForgottenShows(abilities: Abilities, owner: string -> string, shown: set<Window>, key: string)
    requires AbilitiesShow(abilities, owner, shown)
    ensures AbilitiesShow(abilities - {key}, owner, (set w | w in shown && w.0 != key))
  {
  }

  lemma ClearShows(v: Visibility, mid: Visibility, owner: string -> string, shown: set<Window>, key: string,
                   shown': set<Window>, bundleName: string, abilityName: string, moduleName: string, uid: int, b: string)
    requires (forall x :: x in v.apps ==> v.apps[x]) && (b in v.apps <==> ShownFor(shown, owner, b))
    requires mid.apps == v.apps && AbilitiesShow(mid.abilities, owner, shown') && owner(key) == bundleName
    requires shown' == (set w | w in shown && w.0 != key)
    ensures b in mid.UpdateApp(bundleName, abilityName, moduleName, uid).apps <==> ShownFor(shown', owner, b)
  {
    UpdateAppEffect(mid, bundleName, abilityName, moduleName, uid, b);
    VisibleIffShown(mid.abilities, owner, shown', b);
    if b != bundleName {
      OthersKeepShown(shown, owner, key, b);
    }
  }

  lemma ClearAgrees(v: Visibility, owner: string -> string, shown: set<Window>,
                    bundleName: string, abilityName: string, moduleName: string, uid: int)
    requires Agrees(v, owner, shown) && owner(GenerateAbilityKey(uid, abilityName, moduleName)) == bundleName
    ensures var key := GenerateAbilityKey(uid, abilityName, moduleName);
            Agrees(v.Clear(bundleName, abilityName, moduleName, uid), owner, set w | w in shown && w.0 != key)
  {
    var key := GenerateAbilityKey(uid, abilityName, moduleName);
    var shown' := set w | w in shown && w.0 != key;
    var mid := v.(abilities := v.abilities - {key});
    ForgottenShows(v.abilities, owner, shown, key);
    UpdateAppEffect(mid, bundleName, abilityName, moduleName, uid, "");
    forall b
      ensures b in v.Clear(bundleName, abilityName, moduleName, uid).apps <==> ShownFor(shown', owner, b)
    {
      ClearShows(v, mid, owner, shown, key, shown', bundleName, abilityName, moduleName, uid, b);
    }
  }

  /**
   After any notifications in which the ability key determines the bundle, exactly the bundles with a
   visible window are recorded as visible.
   */
  lemma {:induction false} VisibleBundlesAreExact(notices: seq<Notice>, owner: string -> string)
    requires forall i :: 0 <= i < |notices| ==> Owned(notices[i], owner)
    ensures Agrees(Run(notices), owner, Shown(notices))
  {
    if notices == [] {
    } else {
      var init := notices[..|notices| - 1];
      VisibleBundlesAreExact(init, owner);
      match notices[|notices| - 1]
      case Changed(infos) =>
        BatchAgrees(Run(init), owner, Shown(init), infos);
      case Cleared(bundle, ability, moduleName, uid) =>
        ClearAgrees(Run(init), owner, Shown(init), bundle, ability, moduleName, uid);
    }
  }

  lemma TurnAlternates(reported: seq<bool>, before: bool, after: bool)
    requires Alternates(reported) && (before <==> |reported| % 2 == 1)
    ensures var reported' := reported + TurnOf(before, after);
            Alternates(reported') && (after <==> |reported'| % 2 == 1)
  {
  }

  /**
   Whatever the keys are, the reports of a bundle alternate, foreground first, and end in its recorded
   visibility.
   */
  lemma {:induction false} ReportsAlternate(notices: seq<Notice>, bundleName: string)
    ensures var v := Run(notices);
            && (forall b :: b in v.apps ==> v.apps[b])
            && Alternates(ReportsOf(v.reports, bundleName))
            && (bundleName in v.apps <==> |ReportsOf(v.reports, bundleName)| % 2 == 1)
  {
    if notices == [] {
    } else {
      var init := notices[..|notices| - 1];
      ReportsAlternate(init, bundleName);
      var v, v' := Run(init), Run(notices);
      match notices[|notices| - 1] {
        case Changed(infos) =>
          var ws := AcceptedOf(infos);
          UpdateAppsEffect(v.(abilities := RecordedAll(v.abilities, ws)), ws, bundleName);
        case Cleared(bundle, ability, moduleName, uid) =>
          UpdateAppEffect(v.(abilities := v.abilities - {GenerateAbilityKey(uid, ability, moduleName)}),
                          bundle, ability, moduleName, uid, bundleName);
      }
      TurnAlternates(ReportsOf(v.reports, bundleName), bundleName in v.apps, bundleName in v'.apps);
    }
  }

  /** A batch sends a report for a bundle just when its recorded visibility changes, and then only one. */
  lemma OneReportPerBatch(v: Visibility, infos: seq<Option<WindowInfo>>, bundleName: string)
    requires forall b :: b in v.apps ==> v.apps[b]
    ensures ReportsOf(v.Batch(infos).reports, bundleName)
         == ReportsOf(v.reports, bundleName) + TurnOf(bundleName in v.apps, bundleName in v.Batch(infos).apps)
  {
    var ws := AcceptedOf(infos);
    UpdateAppsEffect(v.(abilities := RecordedAll(v.abilities, ws)), ws, bundleName);
  }

  lemma SingleBatch(v: Visibility, w: WindowInfo)
    requires Accepted(Some(w))
    ensures AcceptedOf([Some(w)]) == [w]
    ensures v.Batch([Some(w)])
         == v.(abilities := Recorded(v.abilities, w)).UpdateApp(w.bundleName, w.abilityName, w.moduleName, w.uid)
  {
    var infos := [Some(w)];
    assert infos[..0] == [];
    assert AcceptedOf(infos) == [w];
    RecordedSnoc(v.abilities, [], w);
    assert [] + [w] == [w];
    var mid := v.(abilities := Recorded(v.abilities, w));
    assert mid.UpdateApps([w][..0]) == mid;
  }

  lemma AfterTwo(first: Notice, second: Notice)
    ensures Run([first]) == Run([first, second][..1]) && Shown([first]) == Shown([first, second][..1])
    ensures first.Changed? ==> Run([first]) == Visibility(map[], map[], []).Batch(first.infos)
                               && Shown([first]) == ShownAfterInfos({}, AcceptedOf(first.infos))
    ensures second.Changed? ==> Run([first, second]) == Run([first]).Batch(second.infos)
                                && Shown([first, second]) == ShownAfterInfos(Shown([first]), AcceptedOf(second.infos))
  {
    assert [first, second][..1] == [first] && [first][..0] == [];
  }

  lemma FirstIsVisible(w: WindowInfo)
    requires Accepted(Some(w)) && w.isVisible
    ensures var v := Run([Changed([Some(w)])]);
            v.abilities == map[KeyOf(w) := NewAbility(w)] && w.bundleName in v.apps && (forall b :: b in v.apps ==> v.apps[b])
    ensures Shown([Changed([Some(w)])]) == {(KeyOf(w), w.windowId)}
  {
    var v0 := Visibility(map[], map[], []);
    AfterTwo(Changed([Some(w)]), Changed([]));
    SingleBatch(v0, w);
    var mid := v0.(abilities := Recorded(v0.abilities, w));
    assert mid.abilities == map[KeyOf(w) := NewAbility(w)];
    assert NewAbility(w).windows[w.windowId];
    assert BundleVisible(mid.abilities, w.bundleName) by {
      assert !AllWindowsInvisible(mid.abilities[KeyOf(w)]);
    }
    UpdateAppEffect(mid, w.bundleName, w.abilityName, w.moduleName, w.uid, w.bundleName);
    assert [w][..0] == [] && ShownAfterInfos({}, [w]) == ShownAfterInfo({}, w);
  }

  /**
   Two bundles that share an ability key break the agreement: when a window of the first is shown and the second
   hides a window of that number, the first stays recorded as visible with nothing shown.
   */
  lemma SharedKeyMisleads(first: WindowInfo, second: WindowInfo)
    requires Accepted(Some(first)) && Accepted(Some(second)) && KeyOf(first) == KeyOf(second)
    requires first.windowId == second.windowId && first.bundleName != second.bundleName
    requires first.isVisible && !second.isVisible
    ensures var notices := [Changed([Some(first)]), Changed([Some(second)])];
            first.bundleName in Run(notices).apps && Shown(notices) == {}
  {
    AfterTwo(Changed([Some(first)]), Changed([Some(second)]));
    FirstIsVisible(first);
    var v := Run([Changed([Some(first)])]);
    SingleBatch(v, second);
    UpdateAppEffect(v.(abilities := Recorded(v.abilities, second)), second.bundleName, second.abilityName,
                    second.moduleName, second.uid, first.bundleName);
    assert [second][..0] == [];
    assert ShownAfterInfos(Shown([Changed([Some(first)])]), [second])
        == ShownAfterInfo(Shown([Changed([Some(first)])]), second);
  }

  /** The separator may occur in a name, so different abilities share a key. */
  lemma KeysCoincide(uid: int, x: string, y: string, z: string)
    ensures GenerateAbilityKey(uid, x + "|" + y, z) == GenerateAbilityKey(uid, x, y + "|" + z)
  {
    assert ToString(uid) + "|" + (x + "|" + y) + "|" + z == ToString(uid) + "|" + x + "|" + (y + "|" + z);
  }

  // ----- when every run is exact -----

  datatype Ability = Ability(bundleName: string, abilityName: string, moduleName: string, uid: int)
  {
    function KeyOf(): string {
      GenerateAbilityKey(uid, abilityName, moduleName)
    }

    /** A window of the ability passes the filter of a batch. */
    predicate Nameable() {
      uid > 0 && bundleName != "" && abilityName != ""
    }

    function Window(windowId: nat, isVisible: bool): WindowInfo {
      WindowInfo(bundleName, abilityName, moduleName, uid, windowId, isVisible, false)
    }
  }

  function AbilityOf(w: WindowInfo): Ability {
    Ability(w.bundleName, w.abilityName, w.moduleName, w.uid)
  }

  /** Every ability that the notices name belongs to the vocabulary. */
  predicate InfosOver(infos: seq<Option<WindowInfo>>, vocabulary: set<Ability>) {
    forall i :: 0 <= i < |infos| && Accepted(infos[i]) ==> AbilityOf(infos[i].value) in vocabulary
  }

  predicate NoticeOver(notice: Notice, vocabulary: set<Ability>) {
    match notice
    case Changed(infos) => InfosOver(infos, vocabulary)
    case Cleared(bundle, ability, moduleName, uid) => Ability(bundle, ability, moduleName, uid) in vocabulary
  }

  predicate Over(notices: seq<Notice>, vocabulary: set<Ability>) {
    forall i :: 0 <= i < |notices| ==> NoticeOver(notices[i], vocabulary)
  }

  /** A window of the bundle is shown. */
  predicate HasWindow(shown: set<Window>, vocabulary: set<Ability>, bundleName: string) {
    exists x, w :: x in vocabulary && w in shown && x.bundleName == bundleName && w.0 == x.KeyOf()
  }

  ghost predicate Exact(notices: seq<Notice>, vocabulary: set<Ability>) {
    forall b :: b in Run(notices).apps <==> HasWindow(Shown(notices), vocabulary, b)
  }

  predicate KeyDeterminesBundle(vocabulary: set<Ability>) {
    forall x, y :: x in vocabulary && y in vocabulary && x.KeyOf() == y.KeyOf() ==> x.bundleName == y.bundleName
  }

  predicate Keyed(vocabulary: set<Ability>, key: string) {
    exists x :: x in vocabulary && x.KeyOf() == key
  }

  ghost function OwnerIn(vocabulary: set<Ability>, key: string): string {
    if Keyed(vocabulary, key) then var x :| x in vocabulary && x.KeyOf() == key; x.bundleName else ""
  }

  lemma {:induction false} InfosAreKeyed(shown: set<Window>, infos: seq<Option<WindowInfo>>, vocabulary: set<Ability>)
    requires InfosOver(infos, vocabulary) && forall w :: w in shown ==> Keyed(vocabulary, w.0)
    ensures forall w :: w in ShownAfterInfos(shown, AcceptedOf(infos)) ==> Keyed(vocabulary, w.0)
  {
    if infos == [] {
    } else {
      var init, last := infos[..|infos| - 1], infos[|infos| - 1];
      InfosAreKeyed(shown, init, vocabulary);
      if Accepted(last) {
        assert AcceptedOf(infos)[..|AcceptedOf(init)|] == AcceptedOf(init);
        assert AbilityOf(last.value).KeyOf() == KeyOf(last.value);
      } else {
        assert AcceptedOf(infos) == AcceptedOf(init);
      }
    }
  }

  lemma {:induction false} ShownAreKeyed(notices: seq<Notice>, vocabulary: set<Ability>)
    requires Over(notices, vocabulary)
    ensures forall w :: w in Shown(notices) ==> Keyed(vocabulary, w.0)
  {
    if notices == [] {
    } else {
      var init := notices[..|notices| - 1];
      ShownAreKeyed(init, vocabulary);
      if notices[|notices| - 1].Changed? {
        InfosAreKeyed(Shown(init), notices[|notices| - 1].infos, vocabulary);
      }
    }
  }

  lemma ExactWhenDetermined(notices: seq<Notice>, vocabulary: set<Ability>)
    requires Over(notices, vocabulary) && KeyDeterminesBundle(vocabulary)
    ensures Exact(notices, vocabulary)
  {
    var owner := key => OwnerIn(vocabulary, key);
    forall x | x in vocabulary
      ensures owner(x.KeyOf()) == x.bundleName
    {
      assert Keyed(vocabulary, x.KeyOf());
    }
    forall i | 0 <= i < |notices|
      ensures Owned(notices[i], owner)
    {
      assert NoticeOver(notices[i], vocabulary);
      OwnedWhenOver(notices[i], vocabulary, owner);
    }
    VisibleBundlesAreExact(notices, owner);
    ShownAreKeyed(notices, vocabulary);
    forall b
      ensures ShownFor(Shown(notices), owner, b) <==> HasWindow(Shown(notices), vocabulary, b)
    {
      ShownForIsHasWindow(Shown(notices), vocabulary, owner, b);
    }
  }

  lemma OwnedWhenOver(notice: Notice, vocabulary: set<Ability>, owner: string -> string)
    requires NoticeOver(notice, vocabulary) && forall x :: x in vocabulary ==> owner(x.KeyOf()) == x.bundleName
    ensures Owned(notice, owner)
  {
    match notice
    case Changed(infos) =>
      forall i | 0 <= i < |infos| && Accepted(infos[i])
        ensures owner(KeyOf(infos[i].value)) == infos[i].value.bundleName
      {
        assert owner(AbilityOf(infos[i].value).KeyOf()) == infos[i].value.bundleName;
      }
    case Cleared(bundle, ability, moduleName, uid) =>
      assert owner(Ability(bundle, ability, moduleName, uid).KeyOf()) == bundle;
  }

  lemma ShownForIsHasWindow(shown: set<Window>, vocabulary: set<Ability>, owner: string -> string, bundleName: string)
    requires forall x :: x in vocabulary ==> owner(x.KeyOf()) == x.bundleName
    requires forall w :: w in shown ==> Keyed(vocabulary, w.0)
    ensures ShownFor(shown, owner, bundleName) <==> HasWindow(shown, vocabulary, bundleName)
  {
    if ShownFor(shown, owner, bundleName) {
      var w :| w in shown && owner(w.0) == bundleName;
      var x :| x in vocabulary && x.KeyOf() == w.0;
      assert x in vocabulary && w in shown && x.bundleName == bundleName && w.0 == x.KeyOf();
    }
  }

  /**
   Over a vocabulary of abilities, every sequence of notices leaves exactly the bundles with a visible window
   recorded as visible if and only if the ability key determines the bundle.
   */
  lemma ExactIffDetermined(vocabulary: set<Ability>)
    requires forall x :: x in vocabulary ==> x.Nameable()
    ensures (forall notices :: Over(notices, vocabulary) ==> Exact(notices, vocabulary)) <==> KeyDeterminesBundle(vocabulary)
  {
    if KeyDeterminesBundle(vocabulary) {
      forall notices | Over(notices, vocabulary)
        ensures Exact(notices, vocabulary)
      {
        ExactWhenDetermined(notices, vocabulary);
      }
    } else {
      var x, y :| x in vocabulary && y in vocabulary && x.KeyOf() == y.KeyOf() && x.bundleName != y.bundleName;
      var notices := [Changed([Some(x.Window(0, true))]), Changed([Some(y.Window(0, false))])];
      SharedKeyMisleads(x.Window(0, true), y.Window(0, false));
      assert AbilityOf(x.Window(0, true)) == x && AbilityOf(y.Window(0, false)) == y;
      assert Over(notices, vocabulary);
      assert !HasWindow(Shown(notices), vocabulary, x.bundleName);
    }
  }

  // ----- the object -----

  class WindowVisibilityManager {
    var abilityWindowMap: Abilities
    var appVisibilityMap: map<string, bool>
    /** The events handed to the report handler, oldest first. */
    var reports: seq<Report>

    function View(): Visibility
      reads this
    {
      Visibility(abilityWindowMap, appVisibilityMap, reports)
    }

    constructor ()
      ensures View() == Visibility(map[], map[], [])
    {
      abilityWindowMap, appVisibilityMap, reports := map[], map[], [];
    }

    static method AreAllWindowsInvisible(info: AbilityWindows) returns (invisible: bool)
      ensures invisible <==> AllWindowsInvisible(info)
    {
      var todo := info.windows.Keys;
      while todo != {}
        invariant todo <= info.windows.Keys
        invariant forall id :: id in info.windows && id !in todo ==> !info.windows[id]
        decreases todo
      {
        var id :| id in todo;
        if info.windows[id] {
          return false;
        }
        todo := todo - {id};
      }
      return true;
    }

    method IsAllAbilitiesInvisible(bundleName: string) returns (invisible: bool)
      ensures invisible <==> !BundleVisible(abilityWindowMap, bundleName)
    {
      var todo := abilityWindowMap.Keys;
      while todo != {}
        invariant todo <= abilityWindowMap.Keys
        invariant forall k :: k in abilityWindowMap && k !in todo && abilityWindowMap[k].bundleName == bundleName
                              ==> AllWindowsInvisible(abilityWindowMap[k])
        decreases todo
      {
        var k :| k in todo;
        if abilityWindowMap[k].bundleName == bundleName {
          var hidden := AreAllWindowsInvisible(abilityWindowMap[k]);
          if !hidden {
            return false;
          }
        }
        todo := todo - {k};
      }
      return true;
    }

    method HandleNewAbilityWindow(abilityKey: string, windowData: WindowInfo)
      modifies this`abilityWindowMap
      ensures abilityWindowMap == old(abilityWindowMap)[abilityKey := NewAbility(windowData)]
    {
      var windows: map<nat, bool> := map[];
      windows := windows[windowData.windowId := windowData.isVisible];
      var windowInfo := AbilityWindows(windowData.bundleName, windowData.abilityName, windowData.moduleName,
                                       windowData.uid, windows);
      abilityWindowMap := abilityWindowMap[abilityKey := windowInfo];
    }

    method UpdateExistingAbilityWindow(abilityKey: string, windowData: WindowInfo)
      requires abilityKey in abilityWindowMap && abilityKey == KeyOf(windowData)
      modifies this`abilityWindowMap
      ensures abilityWindowMap == Recorded(old(abilityWindowMap), windowData)
    {
      var windowInfo := abilityWindowMap[abilityKey];
      if windowData.isVisible {
        windowInfo := windowInfo.(windows := windowInfo.windows[windowData.windowId := windowData.isVisible]);
      } else {
        windowInfo := windowInfo.(windows := windowInfo.windows - {windowData.windowId});
      }
      abilityWindowMap := abilityWindowMap[abilityKey := windowInfo];
      var ownKey := GenerateAbilityKey(windowInfo.uid, windowInfo.abilityName, windowInfo.moduleName);
      if |windowInfo.windows| == 0 {
        abilityWindowMap := abilityWindowMap - {ownKey};
      }
    }

    method ReportAppStateChanged(bundleName: string, abilityName: string, moduleName: string, uid: int,
                                 toForeground: bool)
      modifies this`reports
      ensures reports == old(reports) + [Report(bundleName, abilityName, moduleName, uid, toForeground)]
    {
      reports := reports + [Report(bundleName, abilityName, moduleName, uid, toForeground)];
    }

    method UpdateAppVisibility(bundleName: string, abilityName: string, moduleName: string, uid: int)
      modifies this`appVisibilityMap, this`reports
      ensures View() == old(View()).UpdateApp(bundleName, abilityName, moduleName, uid)
    {
      var wasVisible := false;
      var hidden := IsAllAbilitiesInvisible(bundleName);
      var isVisible := !hidden;
      if bundleName in appVisibilityMap {
        wasVisible := appVisibilityMap[bundleName];
      }
      if isVisible {
        appVisibilityMap := appVisibilityMap[bundleName := isVisible];
      } else {
        appVisibilityMap := appVisibilityMap - {bundleName};
      }
      if !wasVisible && isVisible {
        ReportAppStateChanged(bundleName, abilityName, moduleName, uid, true);
      } else if wasVisible && !isVisible {
        ReportAppStateChanged(bundleName, abilityName, moduleName, uid, false);
      }
    }

    /** The part of the loop of `OnWindowVisibilityChanged` that changes the ability map. */
    method RecordWindow(windowData: WindowInfo)
      modifies this`abilityWindowMap
      ensures abilityWindowMap == Recorded(old(abilityWindowMap), windowData)
    {
      var abilityKey := GenerateAbilityKey(windowData.uid, windowData.abilityName, windowData.moduleName);
      if abilityKey !in abilityWindowMap {
        HandleNewAbilityWindow(abilityKey, windowData);
      } else {
        UpdateExistingAbilityWindow(abilityKey, windowData);
      }
    }

    /** The locked part of `OnWindowVisibilityChanged`. */
    method RecordWindows(windowVisibilityInfo: seq<Option<WindowInfo>>) returns (windowDataList: seq<WindowInfo>)
      modifies this`abilityWindowMap
      ensures windowDataList == AcceptedOf(windowVisibilityInfo)
      ensures abilityWindowMap == RecordedAll(old(abilityWindowMap), windowDataList)
    {
      windowDataList := [];
      for i := 0 to |windowVisibilityInfo|
        invariant windowDataList == AcceptedOf(windowVisibilityInfo[..i])
        invariant abilityWindowMap == RecordedAll(old(abilityWindowMap), windowDataList)
      {
        AcceptedSnoc(windowVisibilityInfo, i);
        var info := windowVisibilityInfo[i];
        if info.None? {
          continue;
        }
        var windowData := info.value;
        if windowData.uid <= 0 || |windowData.bundleName| == 0 {
          continue;
        }
        if windowData.isSystem || |windowData.abilityName| == 0 {
          continue;
        }
        RecordedSnoc(old(abilityWindowMap), windowDataList, windowData);
        windowDataList := windowDataList + [windowData];
        RecordWindow(windowData);
      }
      assert windowVisibilityInfo[..|windowVisibilityInfo|] == windowVisibilityInfo;
    }

    method OnWindowVisibilityChanged(windowVisibilityInfo: seq<Option<WindowInfo>>)
      modifies this
      ensures View() == old(View()).Batch(windowVisibilityInfo)
    {
      if |windowVisibilityInfo| == 0 {
        return;
      }
      var windowDataList := RecordWindows(windowVisibilityInfo);
      UpdateAppVisibilities(windowDataList);
    }

    method UpdateAppVisibilities(windowDataList: seq<WindowInfo>)
      modifies this
      ensures View() == old(View()).UpdateApps(windowDataList)
    {
      ghost var mid := View();
      for i := 0 to |windowDataList|
        invariant View() == mid.UpdateApps(windowDataList[..i])
      {
        assert windowDataList[..i + 1][..i] == windowDataList[..i];
        var w := windowDataList[i];
        UpdateAppVisibility(w.bundleName, w.abilityName, w.moduleName, w.uid);
      }
      assert windowDataList[..|windowDataList|] == windowDataList;
    }

    method ClearAbilityWindowInfo(bundleName: string, abilityName: string, moduleName: string, uid: int)
      modifies this
      ensures View() == old(View()).Clear(bundleName, abilityName, moduleName, uid)
    {
      var abilityKey := GenerateAbilityKey(uid, abilityName, moduleName);
      if abilityKey in abilityWindowMap {
        abilityWindowMap := abilityWindowMap - {abilityKey};
      }
      assert abilityWindowMap == old(abilityWindowMap) - {abilityKey};
      UpdateAppVisibility(bundleName, abilityName, moduleName, uid);
    }
  }
}
