/**
 A run after which a refresh session queues a message behind a head it should precede. User 1
 begins a two-part upload, then sends a one-part message that is accepted at time 5; user 2's
 device refreshes the conversation at time 5, and the upload is completed at time 5 as well.
 */
module EqualTimes {
  import opened Options
  import opened Texts
  import opened Times
  import opened RetrySchedule
  import opened Tables
  import opened DeliveryRows
  import opened Transitions
  import opened SessionProofs
  import opened MessageProofs
  import opened StepProofs
  import opened Runs
  import opened AcceptanceOrder

  const SENDER_DEVICE: DeviceId := 3
  const RECIPIENT_DEVICE: DeviceId := 7
  const EARLIER_UPLOAD := MessageKey(1, 100)
  const HEAD_MESSAGE := MessageKey(1, 101)
  const HEAD_ROW := RowKey(HEAD_MESSAGE, RECIPIENT_DEVICE)
  const LETTER: Text := [65]

  function UploadPart(number: nat): PartRequest {
    PartRequest(SENDER_DEVICE, Some(2), 100, number, 2, LETTER)
  }

  const SHORT_MESSAGE := PartRequest(SENDER_DEVICE, Some(2), 101, 1, 1, LETTER)
  const REFRESH := RefreshArrives(RECIPIENT_DEVICE, OnePeer(Some(1)), [])

  // ----- the tables after each stage ----------------------------------------------------------------

  const TWO_DEVICES: State :=
    EMPTY_TABLES.(devices := map[SENDER_DEVICE := Device(Some(1), false), RECIPIENT_DEVICE := Device(Some(2), false)])

  const UPLOAD_BEGUN: State := TWO_DEVICES.(
    messages := map[EARLIER_UPLOAD := Message(0, 2, SENDER_DEVICE, [Some(LETTER), None], None, None, None, None)],
    nextMessageId := 1)

  const SHORT_STORED := Message(1, 2, SENDER_DEVICE, [Some(LETTER)], Some(LETTER), Some(5.0), None, None)

  function ShortAccepted(cfg: Settings): State {
    UPLOAD_BEGUN.(
      messages := UPLOAD_BEGUN.messages[HEAD_MESSAGE := SHORT_STORED],
      deliveries := map[HEAD_ROW := NewPending(cfg, 5.0)],
      nextMessageId := 2)
  }

  function Refreshed(cfg: Settings): State {
    ShortAccepted(cfg).(
      deliveries := map[HEAD_ROW := Arm(TakeIntoSession(NewPending(cfg, 5.0), 0), cfg, 5.0)],
      sessions := map[0 := Session(RECIPIENT_DEVICE, 1, Active, 1)],
      nextSessionId := 1)
  }

  // ----- the run ------------------------------------------------------------------------------------

  lemma Follow(w: Snapshot, step: Step, cfg: Settings, now: Time, t: State)
    requires Reachable(w) && w.clock <= now && cfg.Valid() && Enabled(w.tables, step, cfg, now)
      && Apply(w.tables, step, cfg, now) == t
    ensures Reachable(Snapshot(t, now))
  {
    OneMoreEvent(w, Event(step, cfg, now));
  }

  const ONE_DEVICE: State := EMPTY_TABLES.(devices := map[SENDER_DEVICE := Device(Some(1), false)])

  lemma SenderLinked(cfg: Settings)
    requires cfg.Valid()
    ensures Reachable(Snapshot(ONE_DEVICE, 0.0))
  {
    EmptyIsReachable(0.0);
    var s1 := EMPTY_TABLES.(devices := map[SENDER_DEVICE := Device(None, false)]);
    Follow(Snapshot(EMPTY_TABLES, 0.0), DeviceAdded(SENDER_DEVICE), cfg, 0.0, s1);
    Follow(Snapshot(s1, 0.0), DeviceLinked(SENDER_DEVICE, 1), cfg, 0.0, ONE_DEVICE);
  }

  const UNLINKED: State :=
    EMPTY_TABLES.(devices := map[SENDER_DEVICE := Device(Some(1), false), RECIPIENT_DEVICE := Device(None, false)])

  lemma RecipientAdded(cfg: Settings)
    requires cfg.Valid()
    ensures Reachable(Snapshot(UNLINKED, 0.0))
  {
    SenderLinked(cfg);
    Follow(Snapshot(ONE_DEVICE, 0.0), DeviceAdded(RECIPIENT_DEVICE), cfg, 0.0, UNLINKED);
  }

  lemma RecipientLinked(cfg: Settings)
    requires cfg.Valid()
    ensures Reachable(Snapshot(TWO_DEVICES, 0.0))
  {
    RecipientAdded(cfg);
    Follow(Snapshot(UNLINKED, 0.0), DeviceLinked(RECIPIENT_DEVICE, 2), cfg, 0.0, TWO_DEVICES);
  }

  lemma LetterIsValid()
    ensures IsValidPartText(LETTER) && Join([LETTER]) == LETTER
  {
    assert LETTER[1..] == [];
    assert Utf8Bytes(LETTER[1..]) == 0;
    assert [LETTER][1..] == [];
    assert Join([]) == [];
    assert LETTER + [] == LETTER;
  }

  lemma FirstPart(cfg: Settings)
    ensures Apply(TWO_DEVICES, PartArrives(UploadPart(1)), cfg, 4.0) == UPLOAD_BEGUN
  {
    LetterIsValid();
    var req := UploadPart(1);
    var begun := NewMessage(TWO_DEVICES, 2, req);
    assert begun.partTexts == [None, None];
    var stored := StorePart(begun, req);
    assert stored.partTexts == [Some(LETTER), None];
    assert stored.partTexts[1].None?;
    assert !AllHeld(stored);
  }

  lemma ShortIsStored()
    ensures var begun := NewMessage(UPLOAD_BEGUN, 2, SHORT_MESSAGE);
      && !Conflicts(begun, 2, SHORT_MESSAGE) && AllHeld(StorePart(begun, SHORT_MESSAGE))
      && Placed(begun, SHORT_MESSAGE, 5.0) == SHORT_STORED
  {
    LetterIsValid();
    var begun := NewMessage(UPLOAD_BEGUN, 2, SHORT_MESSAGE);
    assert begun.partTexts == [None];
    assert StorePart(begun, SHORT_MESSAGE).partTexts == [Some(LETTER)];
    assert [Some(LETTER)][1..] == [];
    assert HeldTexts([Some(LETTER)]) == [LETTER];
  }

  lemma ShortIsPlaced(cfg: Settings)
    ensures PlacePart(FindOrCreateMessage(UPLOAD_BEGUN, HEAD_MESSAGE, 2, SHORT_MESSAGE), HEAD_MESSAGE, 2,
      SHORT_MESSAGE, cfg, 5.0).0
      == ShortAccepted(cfg)
  {
    var s1 := FindOrCreateMessage(UPLOAD_BEGUN, HEAD_MESSAGE, 2, SHORT_MESSAGE);
    ShortIsStored();
    PlacedTables(s1, HEAD_MESSAGE, 2, SHORT_MESSAGE, cfg, 5.0);
    var s2 := s1.(messages := s1.messages[HEAD_MESSAGE := SHORT_STORED]);
    ShortFansOut(s2, cfg);
    assert s2.messages == ShortAccepted(cfg).messages;
  }

  lemma ShortMessage(cfg: Settings)
    ensures Apply(UPLOAD_BEGUN, PartArrives(SHORT_MESSAGE), cfg, 5.0) == ShortAccepted(cfg)
  {
    LetterIsValid();
    ShortIsPlaced(cfg);
  }

  lemma ShortFansOut(s: State, cfg: Settings)
    requires s.devices == TWO_DEVICES.devices && s.deliveries == map[] && s.sessions == map[]
    ensures FanOut(s, HEAD_MESSAGE, 2, cfg, 5.0) == s.(deliveries := map[HEAD_ROW := NewPending(cfg, 5.0)])
  {
    assert DevicesOf(s, 2) == {RECIPIENT_DEVICE};
    assert ActiveSession(s, RECIPIENT_DEVICE, 1).None?;
    forall k ensures k in FanOut(s, HEAD_MESSAGE, 2, cfg, 5.0).deliveries <==> k == HEAD_ROW {
      FanOutRowAt(s, HEAD_MESSAGE, 2, cfg, 5.0, k);
    }
    FanOutRowAt(s, HEAD_MESSAGE, 2, cfg, 5.0, HEAD_ROW);
  }

  lemma RefreshScope(cfg: Settings)
    ensures var s := ShortAccepted(cfg);
      && RearmReceipts(s, RECIPIENT_DEVICE, 2, 1, cfg, 5.0) == s
      && ActiveSession(s, RECIPIENT_DEVICE, 1).None?
      && TakenKeys(s, RECIPIENT_DEVICE, 2, 1) == {HEAD_ROW} && MissedKeys(s, RECIPIENT_DEVICE, 2, 1) == {}
  {
  }

  lemma SessionOpened(cfg: Settings)
    ensures OpenScope(ShortAccepted(cfg), RECIPIENT_DEVICE, 1, {HEAD_ROW}, {}, cfg) ==
      Refreshed(cfg).(deliveries := map[HEAD_ROW := TakeIntoSession(NewPending(cfg, 5.0), 0)])
  {
  }

  lemma HeadArmed(cfg: Settings)
    ensures AdvanceSession(Refreshed(cfg).(deliveries := map[HEAD_ROW := TakeIntoSession(NewPending(cfg, 5.0), 0)]),
      0, cfg, 5.0)
      == Refreshed(cfg)
  {
    var s := Refreshed(cfg).(deliveries := map[HEAD_ROW := TakeIntoSession(NewPending(cfg, 5.0), 0)]);
    assert IsNextHead(s, 0, HEAD_ROW);
    assert NextHead(s, 0) == Some(HEAD_ROW);
    assert AdvanceSession(s, 0, cfg, 5.0).deliveries == Refreshed(cfg).deliveries;
  }

  lemma ConversationRefreshed(cfg: Settings)
    ensures RefreshPeer(ShortAccepted(cfg), RECIPIENT_DEVICE, 2, 1, cfg, 5.0).0 == Refreshed(cfg)
  {
    RefreshScope(cfg);
    SessionOpened(cfg);
    HeadArmed(cfg);
  }

  lemma RefreshOpens(cfg: Settings)
    ensures Apply(ShortAccepted(cfg), REFRESH, cfg, 5.0) == Refreshed(cfg)
  {
    RefreshScope(cfg);
    ConversationRefreshed(cfg);
    OneRefreshIs(ShortAccepted(cfg), RECIPIENT_DEVICE, 2, 1, [], cfg, 5.0);
  }

  lemma TablesAreReachable(cfg: Settings)
    requires cfg.Valid()
    ensures Reachable(Snapshot(Refreshed(cfg), 5.0))
  {
    RecipientLinked(cfg);
    FirstPart(cfg);
    Follow(Snapshot(TWO_DEVICES, 0.0), PartArrives(UploadPart(1)), cfg, 4.0, UPLOAD_BEGUN);
    ShortMessage(cfg);
    Follow(Snapshot(UPLOAD_BEGUN, 4.0), PartArrives(SHORT_MESSAGE), cfg, 5.0, ShortAccepted(cfg));
    RefreshOpens(cfg);
    Follow(Snapshot(ShortAccepted(cfg), 5.0), REFRESH, cfg, 5.0, Refreshed(cfg));
  }

  // ----- the tie ------------------------------------------------------------------------------------

  lemma TieIsBroken(cfg: Settings)
    ensures Ordered(Refreshed(cfg)) && BreaksTie(Refreshed(cfg), PartArrives(UploadPart(2)), 5.0)
  {
    var s := Refreshed(cfg);
    LetterIsValid();
    assert forall sid, q :: !IsQueued(s, sid, q);
    assert RECIPIENT_DEVICE in DevicesOf(s, 2);
    assert Appends(s, EARLIER_UPLOAD, 2, 0);
    assert IsHead(s, 0, HEAD_ROW);
    assert Precedes(s, 0, 0, 5.0);
    assert Completes(s, UploadPart(2));
  }

  /** The strict order fails on a tie: in a state the engine gets to, the last part of the earlier upload breaks it. */
  lemma StrictOrderFailsOnTie(cfg: Settings)
    requires cfg.Valid()
    ensures var w := Snapshot(Refreshed(cfg), 5.0);
      var last := Event(PartArrives(UploadPart(2)), cfg, 5.0);
      && Reachable(w) && CanHappen(w, last) && Ordered(w.tables)
      && Reachable(Next()(w, last)) && !Ordered(Next()(w, last).tables)
  {
    var w := Snapshot(Refreshed(cfg), 5.0);
    TablesAreReachable(cfg);
    ReachableInv(w);
    TieIsBroken(cfg);
    var last := Event(PartArrives(UploadPart(2)), cfg, 5.0);
    OneMoreEvent(w, last);
    EventKeepsOrderIff(w, last);
  }
}
