/** The application object: requests that come before there is a window, post-update validation,
    and giving the foreground back to the window it was taken from. */
module Desktop {

  /** What the methods of `App` keep. Window handles and process ids are numbers, zero for none. */
  datatype Window = Window(
    root: bool,                // the QML root exists
    quick: bool,               // and is a window
    controller: bool,
    pendingActivation: bool,
    pendingOpenGallery: bool,
    validation: bool,
    inputStarted: bool,
    target: nat,               // the window to give the foreground back to
    pid: nat)                  // its owner when it was remembered

  /** What the system says while a toggle is handled. */
  datatype Screen = Screen(active: bool, overlay: nat, foreground: nat, own: nat, owners: map<nat, nat>)

  datatype Effect =
    | Showed | GalleryPage | Hid | GaveTo(window: nat) | TookFor(window: nat) | InputOn
    | Remembered(version: string) | Published

  function OwnerOf(screen: Screen, window: nat): nat {
    if window in screen.owners then screen.owners[window] else 0
  }

  predicate SameWindow(screen: Screen, window: nat, pid: nat) {
    window != 0 && pid != 0 && OwnerOf(screen, window) == pid
  }

  /** `showWindow`, `openGallery` and `toggleDesktopWindow`, as state changes. */
  function AfterShow(w: Window): Window {
    w.(pendingActivation := !w.root)
  }

  function ShowEffects(w: Window): seq<Effect> {
    if w.root && w.quick then [Showed] else []
  }

  function AfterGallery(w: Window): Window {
    if !w.root || !w.controller then w.(pendingOpenGallery := true)
    else AfterShow(w.(pendingOpenGallery := false))
  }

  function GalleryEffects(w: Window): seq<Effect> {
    if !w.root || !w.controller then [] else [GalleryPage] + ShowEffects(w)
  }

  /** The window a toggle that shows ours takes the foreground from. */
  function Origin(screen: Screen): nat {
    if screen.overlay != 0 then screen.overlay
    else if screen.foreground != screen.own then screen.foreground else 0
  }

  function AfterToggle(w: Window, screen: Screen): Window {
    if !w.root then w.(pendingActivation := true)
    else if !w.quick then w
    else if screen.active then (if w.target != 0 then w.(target := 0, pid := 0) else w)
    else
      var origin := Origin(screen);
      AfterShow(if origin != 0 then w.(target := origin, pid := OwnerOf(screen, origin)) else w)
  }

  function ToggleEffects(w: Window, screen: Screen): seq<Effect> {
    if !w.root || !w.quick then []
    else if screen.active then
      [Hid] + if SameWindow(screen, w.target, w.pid) then [GaveTo(w.target)] else []
    else [Showed, TookFor(screen.own)]
  }

  function Handover(w: Window): Window
    requires w.root
  {
    if w.pendingOpenGallery then AfterGallery(w) else if w.pendingActivation then AfterShow(w) else w
  }

  function HandoverEffects(w: Window): seq<Effect>
    requires w.root
  {
    if w.pendingOpenGallery then GalleryEffects(w) else if w.pendingActivation then ShowEffects(w) else []
  }

  function AfterInit(w: Window, isWindow: bool): Window {
    Handover(w.(root := true, quick := isWindow)).(inputStarted := !w.validation)
  }

  function InitEffects(w: Window, isWindow: bool): seq<Effect> {
    HandoverEffects(w.(root := true, quick := isWindow)) + if w.validation then [] else [InputOn]
  }

  function AfterValidation(w: Window): Window {
    if w.validation then w.(validation := false, inputStarted := true) else w
  }

  function ValidationEffects(w: Window): seq<Effect> {
    if w.validation && !w.inputStarted then [InputOn] else []
  }

  /** The seven-second timer of a validation run: the greeting, then the token, and only if that is
      committed the input. */
  function AfterTimer(w: Window, ok: bool): Window {
    if ok then AfterValidation(w) else w
  }

  function TimerEffects(w: Window, version: string, ok: bool): seq<Effect> {
    (if w.validation && w.controller then [Remembered(version)] else [])
    + if ok then [Published] + ValidationEffects(w) else []
  }

  class App {
    var root: bool
    var quick: bool
    var controller: bool
    var pendingActivation: bool
    var pendingOpenGallery: bool
    var validation: bool
    var inputStarted: bool
    var target: nat
    var pid: nat
    ghost var effects: seq<Effect>

    constructor (validation: bool)
      ensures View() == Window(false, false, false, false, false, validation, false, 0, 0) && effects == []
    {
      root, quick, controller := false, false, false;
      pendingActivation, pendingOpenGallery, inputStarted := false, false, false;
      this.validation := validation;
      target, pid, effects := 0, 0, [];
    }

    function View(): Window
      reads this
    {
      Window(root, quick, controller, pendingActivation, pendingOpenGallery, validation, inputStarted, target, pid)
    }

    /** `showWindow`. */
    method ShowWindow()
      modifies this`pendingActivation, this`effects
      ensures View() == AfterShow(old(View())) && effects == old(effects) + ShowEffects(old(View()))
    {
      if !root {
        pendingActivation := true;
        return;
      }
      pendingActivation := false;
      if quick {
        effects := effects + [Showed];
      }
    }

    /** `openGallery`. */
    method OpenGallery()
      modifies this`pendingActivation, this`pendingOpenGallery, this`effects
      ensures View() == AfterGallery(old(View())) && effects == old(effects) + GalleryEffects(old(View()))
    {
      if !root || !controller {
        pendingOpenGallery := true;
        return;
      }
      pendingOpenGallery := false;
      effects := effects + [GalleryPage];
      ShowWindow();
    }

    /** `toggleDesktopWindow`. */
    method ToggleDesktopWindow(screen: Screen)
      modifies this`pendingActivation, this`target, this`pid, this`effects
      ensures View() == AfterToggle(old(View()), screen) && effects == old(effects) + ToggleEffects(old(View()), screen)
    {
      if !root {
        pendingActivation := true;
        return;
      }
      if !quick {
        return;
      }
      if screen.active {
        effects := effects + [Hid];
        if target != 0 {
          if SameWindow(screen, target, pid) {
            effects := effects + [GaveTo(target)];
          }
          target, pid := 0, 0;
        }
        return;
      }
      var origin := screen.overlay;
      if origin == 0 {
        var current := screen.foreground;
        if current != 0 && current != screen.own {
          origin := current;
        }
      }
      if origin != 0 {
        target, pid := origin, OwnerOf(screen, origin);
      }
      ShowWindow();
      effects := effects + [TookFor(screen.own)];
    }

    /** The end of `init`: loads the window, hands over what was asked for meanwhile, and starts the
        input unless a new build has yet to prove itself. */
    method FinishInit(loaded: bool, isWindow: bool) returns (ok: bool)
      requires !root && controller && !inputStarted
      modifies this
      ensures ok == loaded
      ensures ok ==> View() == AfterInit(old(View()), isWindow)
      ensures ok ==> effects == old(effects) + InitEffects(old(View()), isWindow)
      ensures !ok ==> View() == old(View()) && effects == old(effects)
    {
      if !loaded {
        return false;
      }
      root, quick := true, isWindow;
      if pendingOpenGallery {
        OpenGallery();
      } else if pendingActivation {
        ShowWindow();
      }
      if !validation {
        effects := effects + [InputOn];
        inputStarted := true;
      }
      return true;
    }

    /** `recordPostUpdateSuccess`. */
    method RecordPostUpdateSuccess(version: string)
      modifies this`effects
      ensures effects == if validation && controller then old(effects) + [Remembered(version)] else old(effects)
    {
      if !validation || !controller {
        return;
      }
      effects := effects + [Remembered(version)];
    }

    /** `completePostUpdateValidation`. */
    method CompletePostUpdateValidation()
      modifies this`validation, this`inputStarted, this`effects
      ensures View() == AfterValidation(old(View())) && effects == old(effects) + ValidationEffects(old(View()))
    {
      if !validation {
        return;
      }
      validation := false;
      if !inputStarted {
        effects := effects + [InputOn];
        inputStarted := true;
      }
    }

    /** What the timer in `main` does with the application when the health window is over; `ok` says
        whether the token could be committed. */
    method HealthWindowOver(version: string, ok: bool)
      modifies this`validation, this`inputStarted, this`effects
      ensures View() == AfterTimer(old(View()), ok)
      ensures effects == old(effects) + TimerEffects(old(View()), version, ok)
    {
      RecordPostUpdateSuccess(version);
      if !ok {
        return;
      }
      effects := effects + [Published];
      CompletePostUpdateValidation();
    }
  }

  // -- requests ----------------------------------------------------------------------------------

  datatype Request = Activate | OpenGallery | Toggle(screen: Screen)

  function AfterRequest(w: Window, r: Request): Window {
    match r
    case Activate => AfterShow(w)
    case OpenGallery => AfterGallery(w)
    case Toggle(screen) => AfterToggle(w, screen)
  }

  function AfterRequests(w: Window, rs: seq<Request>): Window {
    if rs == [] then w else AfterRequest(AfterRequests(w, rs[..|rs| - 1]), rs[|rs| - 1])
  }

  /** The window itself was asked for: activated or toggled. */
  predicate AsksForWindow(rs: seq<Request>) {
    exists k :: 0 <= k < |rs| && !rs[k].OpenGallery?
  }

  lemma AsksMore(rs: seq<Request>, r: Request)
    ensures AsksForWindow(rs + [r]) <==> AsksForWindow(rs) || !r.OpenGallery?
  {
    var more := rs + [r];
    if AsksForWindow(rs) {
      var k :| 0 <= k < |rs| && !rs[k].OpenGallery?;
      assert !more[k].OpenGallery?;
    }
    if !r.OpenGallery? {
      assert !more[|rs|].OpenGallery?;
    }
  }

  lemma {:induction false} RequestsAreRemembered(w: Window, rs: seq<Request>)
    requires !w.root && !w.pendingActivation && !w.pendingOpenGallery
    ensures AfterRequests(w, rs) == w.(pendingActivation := AsksForWindow(rs), pendingOpenGallery := OpenGallery in rs)
  {
    if rs != [] {
      var before, r := rs[..|rs| - 1], rs[|rs| - 1];
      assert rs == before + [r];
      AsksMore(before, r);
      RequestsAreRemembered(w, before);
    }
  }

  /** The window is there and nothing waits for it. */
  predicate Settled(w: Window) {
    w.root && w.controller && !w.pendingActivation && !w.pendingOpenGallery
  }

  /** No request is lost: whatever is asked for before there is a window, a successful start shows
      the window exactly if something was, and the gallery page exactly if that was asked for. */
  lemma NoLostActivation(w: Window, rs: seq<Request>, isWindow: bool)
    requires !w.root && w.controller && !w.pendingActivation && !w.pendingOpenGallery
    ensures var v := AfterRequests(w, rs);
            && InitEffects(v, isWindow)
               == (if OpenGallery in rs then [GalleryPage] else [])
                  + (if isWindow && rs != [] then [Showed] else [])
                  + (if w.validation then [] else [InputOn])
            && Settled(AfterInit(v, isWindow)) && AfterInit(v, isWindow).inputStarted == !w.validation
  {
    RequestsAreRemembered(w, rs);
    if rs != [] && OpenGallery !in rs {
      assert !rs[0].OpenGallery?;
    }
  }

  /** Once the window is there, nothing is ever left waiting again. */
  lemma {:induction false} StaysSettled(w: Window, rs: seq<Request>)
    requires Settled(w)
    ensures Settled(AfterRequests(w, rs))
  {
    if rs != [] {
      StaysSettled(w, rs[..|rs| - 1]);
    }
  }

  predicate SameValidation(w: Window, v: Window) {
    v.validation == w.validation && v.inputStarted == w.inputStarted && v.controller == w.controller
  }

  lemma ToggleKeepsValidation(w: Window, screen: Screen)
    ensures SameValidation(w, AfterToggle(w, screen))
  {
    hide Origin, OwnerOf;
  }

  lemma RequestKeepsValidation(w: Window, r: Request)
    ensures SameValidation(w, AfterRequest(w, r))
  {
    hide AfterToggle;
    if r.Toggle? {
      ToggleKeepsValidation(w, r.screen);
    }
  }

  lemma {:induction false} RequestsKeepValidation(w: Window, rs: seq<Request>)
    ensures SameValidation(w, AfterRequests(w, rs))
  {
    hide AfterRequest;
    if rs != [] {
      RequestsKeepValidation(w, rs[..|rs| - 1]);
      RequestKeepsValidation(AfterRequests(w, rs[..|rs| - 1]), rs[|rs| - 1]);
    }
  }

  /** A new build, from the end of `init` to the end of the health window, whatever is asked for in
      between: capture input starts exactly if the token is committed, and directly after it; the
      greeting comes directly before it. */
  lemma ValidationOrder(w: Window, isWindow: bool, rs: seq<Request>, version: string, ok: bool)
    requires !w.root && w.validation && !w.inputStarted
    ensures InputOn !in InitEffects(w, isWindow)
    ensures var v := AfterRequests(AfterInit(w, isWindow), rs);
            && TimerEffects(v, version, ok)
               == (if w.controller then [Remembered(version)] else []) + (if ok then [Published, InputOn] else [])
            && AfterTimer(v, ok).inputStarted == ok
  {
    RequestsKeepValidation(AfterInit(w, isWindow), rs);
  }

  /** Outside validation nothing is greeted or started, and input that runs is not started again. */
  lemma TimerOtherwise(w: Window, version: string, ok: bool)
    ensures !w.validation ==> AfterTimer(w, ok) == w && TimerEffects(w, version, ok) == if ok then [Published] else []
    ensures w.inputStarted ==> InputOn !in TimerEffects(w, version, ok)
  {
  }

  /** What a toggle does: before there is a window it is remembered; with ours in front it hides it and
      gives the foreground to the window remembered, if that is still its owner's; otherwise it shows
      ours and remembers the window the overlay kept, or else the one in front if that is another. */
  lemma ToggleMeans(w: Window, screen: Screen)
    requires w.target == 0 ==> w.pid == 0
    ensures var v, effects := AfterToggle(w, screen), ToggleEffects(w, screen);
      if !w.root then v == w.(pendingActivation := true) && effects == []
      else if !w.quick then v == w && effects == []
      else if screen.active then
        && v == w.(target := 0, pid := 0)
        && effects == if w.target != 0 && w.pid != 0 && w.target in screen.owners && screen.owners[w.target] == w.pid
                      then [Hid, GaveTo(w.target)] else [Hid]
      else
        && effects == [Showed, TookFor(screen.own)] && !v.pendingActivation
        && var origin := if screen.overlay != 0 then screen.overlay
                         else if screen.foreground != screen.own then screen.foreground else 0;
           v.target == (if origin != 0 then origin else w.target)
           && v.pid == if origin == 0 then w.pid else if origin in screen.owners then screen.owners[origin] else 0
  {
    assert [Hid] + [GaveTo(w.target)] == [Hid, GaveTo(w.target)] && [Hid] + [] == [Hid];
  }

  // -- focus ----------------------------------------------------------------------------------------

  /** What a toggle does with the return address: remembers a window and its owner, gives the
      foreground back, forgets an address that is no longer good, or none of these. */
  datatype Note = Remember(window: nat, pid: nat) | GiveBack(window: nat) | Forget | Nothing

  function NoteOf(w: Window, screen: Screen): Note {
    if !w.root || !w.quick then Nothing
    else if screen.active then
      if w.target == 0 then Nothing
      else if SameWindow(screen, w.target, w.pid) then GiveBack(w.target) else Forget
    else if Origin(screen) != 0 then Remember(Origin(screen), OwnerOf(screen, Origin(screen)))
    else Nothing
  }

  lemma GivingBackIsAnEffect(w: Window, screen: Screen, window: nat)
    ensures GaveTo(window) in ToggleEffects(w, screen) <==> NoteOf(w, screen) == GiveBack(window)
  {
  }

  function NoteAt(w: Window, r: Request): Note {
    if r.Toggle? then NoteOf(w, r.screen) else Nothing
  }

  /** The notes of a run of requests. */
  function Notes(w: Window, rs: seq<Request>): (notes: seq<Note>)
    ensures |notes| == |rs|
  {
    if rs == [] then []
    else
      var before, r := rs[..|rs| - 1], rs[|rs| - 1];
      Notes(w, before) + [NoteAt(AfterRequests(w, before), r)]
  }

  /** The note at `j` is the last that matters: nothing was given back, forgotten or remembered since. */
  predicate Standing(notes: seq<Note>, j: int) {
    0 <= j < |notes| && notes[j].Remember? && forall k :: j < k < |notes| ==> notes[k] == Nothing
  }

  lemma StandingMore(notes: seq<Note>, j: int)
    requires Standing(notes, j)
    ensures Standing(notes + [Nothing], j)
  {
  }

  /** What a note says about the return address before and after. */
  predicate NoteFits(note: Note, w: Window, v: Window) {
    && (v.target == 0 ==> v.pid == 0)
    && match note
       case Remember(window, pid) => v.target == window && v.pid == pid
       case Nothing => v.target == w.target && v.pid == w.pid
       case _ => v.target == 0
  }

  lemma ToggleTells(w: Window, screen: Screen)
    requires w.target == 0 ==> w.pid == 0
    ensures NoteFits(NoteOf(w, screen), w, AfterToggle(w, screen))
  {
    hide SameWindow, OwnerOf, Origin;
  }

  lemma NoteTells(w: Window, r: Request)
    requires w.target == 0 ==> w.pid == 0
    ensures NoteFits(NoteAt(w, r), w, AfterRequest(w, r))
  {
    hide AfterToggle, NoteOf;
    if r.Toggle? {
      ToggleTells(w, r.screen);
    }
  }

  /** The return address is always the last one remembered and not used up, and no address means no owner. */
  lemma {:induction false} TargetIsRemembered(w: Window, rs: seq<Request>)
    requires w.target == 0 && w.pid == 0
    ensures var v := AfterRequests(w, rs);
            && (v.target == 0 ==> v.pid == 0)
            && (v.target != 0 ==> exists j :: Standing(Notes(w, rs), j) && Notes(w, rs)[j] == Remember(v.target, v.pid))
  {
    hide AfterRequest, NoteAt;
    if rs != [] {
      var before, r := rs[..|rs| - 1], rs[|rs| - 1];
      TargetIsRemembered(w, before);
      NoteTells(AfterRequests(w, before), r);
      var u, v := AfterRequests(w, before), AfterRequests(w, rs);
      var note := Notes(w, rs)[|rs| - 1];
      assert Notes(w, rs) == Notes(w, before) + [note];
      if note.Remember? {
        assert Standing(Notes(w, rs), |rs| - 1);
      } else if v.target != 0 {
        assert note == Nothing && v.target == u.target && v.pid == u.pid;
        var j :| Standing(Notes(w, before), j) && Notes(w, before)[j] == Remember(u.target, u.pid);
        StandingMore(Notes(w, before), j);
      }
    }
  }

  /** The foreground goes back to a window only if it was remembered, its owner is still the one
      recorded with it, and it was neither used nor replaced since; giving it back uses it up. */
  lemma FocusGoesBackOnce(w: Window, rs: seq<Request>, i: nat, window: nat) returns (j: int)
    requires w.target == 0 && w.pid == 0 && i < |rs| && rs[i].Toggle?
    requires GaveTo(window) in ToggleEffects(AfterRequests(w, rs[..i]), rs[i].screen)
    ensures 0 <= j < i && Standing(Notes(w, rs[..i]), j)
    ensures Notes(w, rs[..i])[j] == Remember(window, OwnerOf(rs[i].screen, window))
    ensures window != 0 && OwnerOf(rs[i].screen, window) != 0
    ensures Notes(w, rs[..i + 1])[i] == GiveBack(window)
  {
    var v := AfterRequests(w, rs[..i]);
    GivingBackIsAnEffect(v, rs[i].screen, window);
    TargetIsRemembered(w, rs[..i]);
    assert rs[..i + 1][..i] == rs[..i];
    j :| Standing(Notes(w, rs[..i]), j) && Notes(w, rs[..i])[j] == Remember(v.target, v.pid);
  }

  lemma {:induction false} NotesBefore(w: Window, rs: seq<Request>, n: nat)
    requires n <= |rs|
    ensures Notes(w, rs[..n]) == Notes(w, rs)[..n]
  {
    if n == |rs| {
      assert rs[..n] == rs;
    } else {
      NotesBefore(w, rs[..|rs| - 1], n);
      assert rs[..|rs| - 1][..n] == rs[..n];
    }
  }

  /** So no remembered window is used twice: two times the foreground is given back, it goes to
      windows that were remembered at different times. */
  lemma EachIsUsedOnce(w: Window, rs: seq<Request>, i: nat, k: nat, window: nat, other: nat) returns (j: int, l: int)
    requires w.target == 0 && w.pid == 0 && i < k < |rs| && rs[i].Toggle? && rs[k].Toggle?
    requires GaveTo(window) in ToggleEffects(AfterRequests(w, rs[..i]), rs[i].screen)
    requires GaveTo(other) in ToggleEffects(AfterRequests(w, rs[..k]), rs[k].screen)
    ensures 0 <= j < i < l < k
    ensures Notes(w, rs)[j] == Remember(window, OwnerOf(rs[i].screen, window))
    ensures Notes(w, rs)[l] == Remember(other, OwnerOf(rs[k].screen, other))
  {
    hide Notes, AfterRequests, ToggleEffects;
    j := FocusGoesBackOnce(w, rs, i, window);
    l := FocusGoesBackOnce(w, rs, k, other);
    NotesBefore(w, rs, i);
    NotesBefore(w, rs, k);
    NotesBefore(w, rs, i + 1);
    assert Notes(w, rs[..k])[i] == Notes(w, rs)[i] == Notes(w, rs[..i + 1])[i];
  }

  lemma NoteIsWindow(w: Window, r: Request)
    ensures NoteAt(w, r).Remember? ==> NoteAt(w, r).window != 0
  {
  }

  /** Conversely, a window that stands remembered is the return address. */
  lemma {:induction false} StandingIsTarget(w: Window, rs: seq<Request>, j: nat)
    requires w.target == 0 && w.pid == 0 && Standing(Notes(w, rs), j)
    ensures var v := AfterRequests(w, rs); Notes(w, rs)[j] == Remember(v.target, v.pid) && v.target != 0
  {
    hide AfterRequest, NoteAt;
    var before, r := rs[..|rs| - 1], rs[|rs| - 1];
    var notes := Notes(w, before);
    TargetIsRemembered(w, before);
    NoteTells(AfterRequests(w, before), r);
    NoteIsWindow(AfterRequests(w, before), r);
    assert Notes(w, rs) == notes + [NoteAt(AfterRequests(w, before), r)];
    assert rs != [] && AfterRequests(w, rs) == AfterRequest(AfterRequests(w, before), r);
    if j == |notes| {
      assert Notes(w, rs)[j] == NoteAt(AfterRequests(w, before), r);
    } else {
      assert Notes(w, rs)[|notes|] == Nothing;
      assert notes[j] == Notes(w, rs)[j];
      assert forall k :: j < k < |notes| ==> notes[k] == Notes(w, rs)[k];
      StandingIsTarget(w, before, j);
    }
  }

  /** With our window in front, a toggle gives the foreground back exactly if a remembered window stands
      and its owner is still the one recorded with it. */
  lemma FocusGoesBackExactly(w: Window, rs: seq<Request>, i: nat, window: nat)
    requires w.target == 0 && w.pid == 0 && i < |rs| && rs[i].Toggle?
    requires var v := AfterRequests(w, rs[..i]); v.root && v.quick && rs[i].screen.active
    ensures GaveTo(window) in ToggleEffects(AfterRequests(w, rs[..i]), rs[i].screen)
       <==> exists j: nat, pid :: Standing(Notes(w, rs[..i]), j) && Notes(w, rs[..i])[j] == Remember(window, pid)
                                  && pid != 0 && window in rs[i].screen.owners && rs[i].screen.owners[window] == pid
  {
    hide AfterRequests, Notes;
    var v, screen, notes := AfterRequests(w, rs[..i]), rs[i].screen, Notes(w, rs[..i]);
    TargetIsRemembered(w, rs[..i]);
    if GaveTo(window) in ToggleEffects(v, screen) {
      var k: int :| Standing(notes, k) && notes[k] == Remember(v.target, v.pid);
    }
    forall j: nat, pid | Standing(notes, j) && notes[j] == Remember(window, pid)
                         && pid != 0 && window in screen.owners && screen.owners[window] == pid
      ensures GaveTo(window) in ToggleEffects(v, screen)
    {
      StandingIsTarget(w, rs[..i], j);
    }
  }
}
