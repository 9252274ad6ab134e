/** The one conversation slot of a chat, with expiry (apps/bot/src/conversation.ts). */
module Conversation {
  import opened Common

  /** Fields the coffee wizards keep in a conversation; other wizards use `Other`. */
  datatype Key = LocationId | LocationName | Refills | Consumables | Started | Draft | Position | IngredientId
               | ContainerNumber | MeasuredBefore | FilledWeight | WeighedWithLid | DupConfirmed
               | Fixing | Water | Cups | Lids | Other(name: string)

  datatype Val = Text(s: string) | Num(n: real) | Flag(b: bool) | NullVal

  type Data = map<Key, Val>

  datatype Flow = CoffeeRefill | CoffeeConsumable | CoffeeVisit | OtherFlow(name: string)

  datatype Step = AtLocation | AtPosition | AtContainer | AtBefore | AtWeight | AtLid | AtDup
                | AtWater | AtCups | AtLids | AtConfirm | AtMenu | OtherStep(name: string)

  datatype Conversation = Conversation(flow: Flow, step: Step, data: Data, at: int)

  type ChatId = nat

  class Conversations {
    const ttl: int
    var slots: map<ChatId, Conversation>

    constructor (ttl: int)
      ensures this.ttl == ttl && slots == map[]
    {
      this.ttl := ttl;
      slots := map[];
    }

    predicate Expired(c: Conversation, now: int) { now - c.at > ttl }

    /** What `get` would return. */
    function Live(chat: ChatId, now: int): Option<Conversation>
      reads this
    {
      if chat in slots && !Expired(slots[chat], now) then Some(slots[chat]) else None
    }

    method Start(chat: ChatId, flow: Flow, step: Step, data: Data, now: int)
      modifies this
      ensures slots == old(slots)[chat := Conversation(flow, step, data, now)]
      ensures ttl >= 0 ==> Live(chat, now) == Some(Conversation(flow, step, data, now))
    {
      slots := slots[chat := Conversation(flow, step, data, now)];
    }

    method Get(chat: ChatId, now: int) returns (c: Option<Conversation>)
      modifies this
      ensures c == old(Live(chat, now)) == Live(chat, now)
      ensures slots == if c.None? then old(slots) - {chat} else old(slots)
    {
      if chat !in slots { return None; }
      if Expired(slots[chat], now) {
        slots := slots - {chat};
        return None;
      }
      return Some(slots[chat]);
    }

    /** Merges: a field the patch does not name keeps its value. */
    method Advance(chat: ChatId, step: Step, patch: Data, now: int) returns (c: Option<Conversation>)
      modifies this
      ensures old(Live(chat, now)).None? ==> c.None? && slots == old(slots) - {chat}
      ensures old(Live(chat, now)).Some? ==>
                var before := old(Live(chat, now)).value;
                c == Some(Conversation(before.flow, step, before.data + patch, now))
                && slots == old(slots)[chat := c.value]
    {
      c := Get(chat, now);
      if c.None? { return; }
      c := Some(Conversation(c.value.flow, step, c.value.data + patch, now));
      slots := slots[chat := c.value];
    }

    method Clear(chat: ChatId)
      modifies this
      ensures slots == old(slots) - {chat}
    {
      slots := slots - {chat};
    }

    /** Removes exactly the expired conversations, so nothing `get` could return is lost. */
    method Sweep(now: int)
      modifies this
      ensures slots == map chat | chat in old(slots) && !Expired(old(slots)[chat], now) :: old(slots)[chat]
      ensures forall chat :: Live(chat, now) == old(Live(chat, now))
    {
      var left := slots.Keys;
      var was := slots;
      while left != {}
        decreases |left|
        invariant left <= was.Keys && slots.Keys <= was.Keys
        invariant forall chat :: chat in slots ==>
                    slots[chat] == was[chat] && (chat in left || !Expired(was[chat], now))
        invariant forall chat :: chat in was && (chat in left || !Expired(was[chat], now)) ==> chat in slots
      {
        var chat :| chat in left;
        if Expired(was[chat], now) { slots := slots - {chat}; }
        left := left - {chat};
      }
    }
  }
}

/**
 * The coffee wizard: refilling bunkers and logging consumables on one visit, all in one conversation slot
 * while stale buttons of every earlier screen stay in the chat (apps/bot/src/coffee-refill.ts,
 * coffee-returns.ts, coffee-visit.ts, staff.ts). Core's answers and typed numbers are parameters.
 */
module CoffeeVisit {
  import opened Common
  import opened Conversation

  datatype VisitState = VisitState(locationId: string, locationName: string, refills: real, consumables: bool,
                                   started: bool)

  function TextOf(d: Data, k: Key): string {
    if k in d && d[k].Text? then d[k].s else ""
  }

  function NumOf(d: Data, k: Key): Option<real> {
    if k in d && d[k].Num? then Some(d[k].n) else None
  }

  function RefillsOf(d: Data): real {
    if NumOf(d, Refills).Some? then NumOf(d, Refills).value else 0.0
  }

  predicate IsTrue(d: Data, k: Key) {
    k in d && d[k] == Flag(true)
  }

  function VisitOf(d: Data): Option<VisitState> {
    if TextOf(d, LocationId) == "" || TextOf(d, LocationName) == "" then None
    else Some(VisitState(TextOf(d, LocationId), TextOf(d, LocationName), RefillsOf(d), IsTrue(d, Consumables),
                         IsTrue(d, Started)))
  }

  predicate Coffee(f: Flow) { !f.OtherFlow? }

  function VisitFromFlow(c: Option<Conversation>): Option<VisitState> {
    if c.None? || !Coffee(c.value.flow) then None
    else
      var visit := VisitOf(c.value.data);
      if visit.Some? && visit.value.started then visit else None
  }

  function VisitData(v: VisitState): Data {
    map[LocationId := Text(v.locationId), LocationName := Text(v.locationName), Refills := Num(v.refills),
        Consumables := Flag(v.consumables), Started := Flag(v.started)]
  }

  /** These data carry the visit: its place, its count as a number, and its two marks. */
  predicate Carries(d: Data, v: VisitState) {
    && LocationId in d && d[LocationId] == Text(v.locationId) && LocationName in d
       && d[LocationName] == Text(v.locationName)
    && (if Refills in d && d[Refills].Num? then d[Refills].n == v.refills else v.refills == 0.0)
    && (v.consumables <==> Consumables in d && d[Consumables] == Flag(true))
    && (v.started <==> Started in d && d[Started] == Flag(true))
  }

  /** A started visit is seen in a coffee conversation exactly when its data carry one with a place. */
  lemma VisitSeenExactly(c: Conversation, v: VisitState)
    ensures VisitFromFlow(Some(c)) == Some(v)
            <==> !c.flow.OtherFlow? && v.started && v.locationId != "" && v.locationName != "" && Carries(c.data, v)
  {
  }

  /** What a visit writes reads back as that visit. */
  lemma VisitRoundTrip(v: VisitState)
    ensures Carries(VisitData(v), v)
    ensures v.locationId != "" && v.locationName != "" ==> VisitOf(VisitData(v)) == Some(v)
  {
  }

  datatype RefillCallback = CancelRefill | PickLocation(id: string) | DupSkip | DupWrite | Lid(withLid: bool)
                          | PickPosition(position: nat, ingredient: Option<string>) | Press(press: NumpadPress)
  datatype NumpadPress = DigitOrErase | SkipKey | DoneKey(noLid: bool)
  datatype VisitCallback = More | Cons | Finish | NextLocation
  datatype ConsumableCallback = CancelCons | ConsLocation(id: string) | Fix(field: Key) | SaveCons
                              | ConsPress(press: NumpadPress)

  /**
   * What a press or a text meets: the clock when it arrives and after Core answered, whether the role permits it,
   * whether Core lists locations and bunkers, the name of the pressed location, whether the refill has a twin today,
   * whether Core confirmed the record, and the number typed or on the keypad (`skip` is the word for none).
   */
  datatype World = World(now: int, later: int, permitted: bool, answered: bool, found: Option<string>, twin: bool,
                         confirmed: bool, typed: Option<real>, skip: bool, draft: string)

  /** One successful `submitCoffeeRefill`; `chosen` is the ingredient the operator picked, if any. */
  datatype Refill = Refill(chat: ChatId, locationId: string, position: real, chosen: Option<string>,
                           containerNumber: Option<real>, measuredBefore: Option<int>, filledWeight: int,
                           weighedWithLid: bool)

  /** `Math.round`: the nearest whole number, a half upwards. */
  function Round(x: real): int {
    (x + 0.5).Floor
  }

  /** The record submitted from these data. */
  function RefillOf(chat: ChatId, d: Data): Refill
    requires NumOf(d, Position).Some? && NumOf(d, FilledWeight).Some?
  {
    var before := NumOf(d, MeasuredBefore);
    Refill(chat, TextOf(d, LocationId), NumOf(d, Position).value,
           if IngredientId in d && d[IngredientId].Text? then Some(d[IngredientId].s) else None,
           NumOf(d, ContainerNumber), if before.Some? then Some(Round(before.value)) else None,
           Round(NumOf(d, FilledWeight).value), !(WeighedWithLid in d && d[WeighedWithLid] == Flag(false)))
  }

  predicate Nearest(n: int, x: real) {
    n as real - 0.5 <= x < n as real + 0.5
  }

  /** The record says what the data hold, with the weights rounded and weighing with the lid as the default. */
  predicate Records(r: Refill, chat: ChatId, d: Data) {
    && r.chat == chat && LocationId in d && d[LocationId] == Text(r.locationId)
    && Position in d && d[Position] == Num(r.position)
    && FilledWeight in d && d[FilledWeight].Num? && Nearest(r.filledWeight, d[FilledWeight].n)
    && (if IngredientId in d && d[IngredientId].Text? then r.chosen == Some(d[IngredientId].s) else r.chosen.None?)
    && (if ContainerNumber in d && d[ContainerNumber].Num? then r.containerNumber == Some(d[ContainerNumber].n)
        else r.containerNumber.None?)
    && (if MeasuredBefore in d && d[MeasuredBefore].Num?
        then r.measuredBefore.Some? && Nearest(r.measuredBefore.value, d[MeasuredBefore].n)
        else r.measuredBefore.None?)
    && (!r.weighedWithLid <==> WeighedWithLid in d && d[WeighedWithLid] == Flag(false))
  }

  lemma RefillRecords(chat: ChatId, d: Data)
    requires TextOf(d, LocationId) != "" && NumOf(d, Position).Some? && NumOf(d, FilledWeight).Some?
    ensures Records(RefillOf(chat, d), chat, d)
  {
  }

  /** The visit after one more refill: the same location, one more, started. */
  function AfterRefill(d: Data): VisitState {
    VisitState(TextOf(d, LocationId), TextOf(d, LocationName), RefillsOf(d) + 1.0, IsTrue(d, Consumables), true)
  }

  /** An ingredient picked by one press, for that bunker of the machine at that location. */
  datatype Pick = Pick(locationId: string, position: real, ingredient: string)

  /** The picked ingredient of a refill belongs to its own bunker and machine. */
  ghost predicate PickedHere(r: Refill, picks: set<Pick>) {
    r.chosen.Some? ==> Pick(r.locationId, r.position, r.chosen.value) in picks
  }

  /** A live refill with a location, a bunker and a weight, not a twin that still asks for confirmation. */
  predicate Submittable(c: Option<Conversation>, twin: bool) {
    c.Some? && c.value.flow == CoffeeRefill && Complete(c.value.data, twin)
  }

  predicate Complete(d: Data, twin: bool) {
    && HasBunker(d) && NumOf(d, FilledWeight).Some?
    && (twin ==> IsTrue(d, DupConfirmed))
  }

  /** A location and a bunker are chosen. */
  predicate HasBunker(d: Data) {
    TextOf(d, LocationId) != "" && NumOf(d, Position).Some?
  }

  predicate PositiveNumber(w: World) {
    w.typed.Some? && w.typed.value > 0.0
  }

  predicate ContainerNumberOk(w: World) {
    w.typed.Some? && 1.0 <= w.typed.value <= 27.0
  }

  /** What the steps of a refill fill in, in their order. */
  function RefillField(step: Step): Option<(Key, Step)> {
    match step
    case AtContainer => Some((ContainerNumber, AtBefore))
    case AtBefore => Some((MeasuredBefore, AtWeight))
    case AtWeight => Some((FilledWeight, AtLid))
    case _ => None
  }

  /** A step takes the number; only the weight after filling cannot be skipped. */
  predicate Takes(step: Step, skip: bool, w: World) {
    match step
    case AtContainer => skip || (w.typed.Some? && 1.0 <= w.typed.value <= 27.0)
    case AtBefore => skip || (w.typed.Some? && w.typed.value > 0.0)
    case AtWeight => w.typed.Some? && w.typed.value > 0.0
    case _ => false
  }

  function Entered(step: Step, skip: bool, w: World): Val {
    if w.typed.None? || (skip && step != AtWeight) then NullVal else Num(w.typed.value)
  }

  /** What the steps of the consumables fill in, in their order. */
  function CountField(step: Step): Option<(Key, Step)> {
    match step
    case AtWater => Some((Water, AtCups))
    case AtCups => Some((Cups, AtLids))
    case AtLids => Some((Lids, AtConfirm))
    case _ => None
  }

  /** The count for a field: none is zero, and a negative one is refused. */
  function Count(w: World): real {
    if w.skip then 0.0 else if w.typed.Some? then w.typed.value else -1.0
  }

  /** What a bunker press writes. */
  function PositionPatch(position: real, ingredient: Option<string>): Data {
    map[Position := Num(position), Draft := Text(""),
        IngredientId := if ingredient.Some? then Text(ingredient.value) else NullVal]
  }

  /** The ingredient a bunker press names, at the location the conversation is on. */
  function Named(d: Data, position: real, ingredient: Option<string>): set<Pick> {
    if ingredient.Some? then {Pick(TextOf(d, LocationId), position, ingredient.value)} else {}
  }

  /** What every conversation satisfies: `filled` counts the refills since its fresh start. */
  ghost predicate ConvOk(c: Conversation, filled: nat, picks: set<Pick>) {
    && (Coffee(c.flow) ==> RefillsOf(c.data) == filled as real)
    && (c.flow == CoffeeVisit ==> IsTrue(c.data, Started))
    && (c.flow == CoffeeRefill && IngredientId in c.data && c.data[IngredientId].Text? ==>
          NumOf(c.data, Position).Some?
          && Pick(TextOf(c.data, LocationId), NumOf(c.data, Position).value, c.data[IngredientId].s) in picks)
  }

  /** The visit a wizard carries, taken as begun. */
  function VisitHere(d: Data): VisitState {
    VisitState(TextOf(d, LocationId), TextOf(d, LocationName), RefillsOf(d), IsTrue(d, Consumables), true)
  }

  /** What a location press of the consumables writes. */
  function LocationPatch(id: string, name: string): Data {
    map[LocationId := Text(id), LocationName := Text(name), Draft := Text(""), Fixing := Flag(false)]
  }

  /** The wizard already asks for the next location. */
  predicate ChoosesLocation(c: Option<Conversation>) {
    c.Some? && c.value.flow == CoffeeRefill && c.value.step == AtLocation
  }

  /** What the operator entered for one refill. */
  const TypedFields := {ContainerNumber, MeasuredBefore, FilledWeight, WeighedWithLid, DupConfirmed}

  /** The fields that carry a visit and the bunker in hand. */
  const VisitFields := {LocationId, LocationName, Refills, Consumables, Started, Position, IngredientId}

  predicate SameFields(d: Data, d': Data, keys: set<Key>) {
    forall k :: k in keys ==> (k in d <==> k in d') && (k in d ==> d[k] == d'[k])
  }

  class CoffeeBot {
    const conversations: Conversations
    /** Successful refills since the chat's last fresh start. */
    ghost var filled: map<ChatId, nat>
    /** Every ingredient that a press of the chat named, with its bunker and location. */
    ghost var picks: map<ChatId, set<Pick>>
    ghost var submitted: seq<Refill>

    constructor (conversations: Conversations)
      requires conversations.slots == map[] && conversations.ttl >= 0
      ensures Valid() && this.conversations == conversations && submitted == []
    {
      this.conversations := conversations;
      filled, picks, submitted := map[], map[], [];
    }

    ghost function Filled(chat: ChatId): nat reads this { if chat in filled then filled[chat] else 0 }
    ghost function Picks(chat: ChatId): set<Pick> reads this { if chat in picks then picks[chat] else {} }

    ghost predicate Valid()
      reads this, conversations
    {
      && conversations.ttl >= 0
      && (forall chat :: chat in conversations.slots ==> ConvOk(conversations.slots[chat], Filled(chat), Picks(chat)))
      && (forall i :: 0 <= i < |submitted| ==> PickedHere(submitted[i], Picks(submitted[i].chat)))
    }

    /** Nothing was picked, and the frame holds. */
    twostate predicate Kept(chat: ChatId)
      reads this, conversations
    {
      Framed(chat) && Picks(chat) == old(Picks(chat))
    }

    /**
     * Other chats keep their slot; the counter follows the submissions one by one, or restarts with an empty wizard.
     */
    twostate predicate Framed(chat: ChatId)
      reads this, conversations
    {
      && conversations.slots - {chat} == old(conversations.slots) - {chat}
      && filled - {chat} == old(filled) - {chat} && picks - {chat} == old(picks) - {chat}
      && old(submitted) <= submitted && |submitted| <= |old(submitted)| + 1
      && (Filled(chat) == old(Filled(chat)) + (|submitted| - |old(submitted)|) || Restarted(chat))
    }

    /** What the chat sees of its conversation is as it was. */
    twostate predicate Untouched(chat: ChatId, now: int)
      reads conversations
    {
      conversations.Live(chat, now) == old(conversations.Live(chat, now))
    }

    /** The same wizard is still there, with the same visit and bunker. */
    twostate predicate StaysOpen(chat: ChatId)
      reads conversations
    {
      && chat in conversations.slots && chat in old(conversations.slots)
      && conversations.slots[chat].flow == old(conversations.slots[chat]).flow
      && SameFields(old(conversations.slots[chat]).data, conversations.slots[chat].data, VisitFields)
    }

    /** A live conversation stays open; an expired one may only vanish. */
    twostate predicate GoesOn(chat: ChatId, now: int)
      reads conversations
    {
      && (chat in conversations.slots ==> StaysOpen(chat))
      && (old(conversations.Live(chat, now)).Some? ==> chat in conversations.slots)
    }

    /** The slot shows the menu of that visit. */
    predicate AtMenuOf(chat: ChatId, visit: VisitState, now: int)
      reads conversations
    {
      && chat in conversations.slots
      && conversations.slots[chat]
         == Conversation(CoffeeVisit, AtMenu,
                         map[LocationId := Text(visit.locationId), LocationName := Text(visit.locationName),
                             Refills := Num(visit.refills), Consumables := Flag(visit.consumables),
                             Started := Flag(visit.started)], now)
    }

    /** The slot shows the menu of the visit that these data belong to, begun, with so many more refills. */
    predicate VisitGoesOn(chat: ChatId, d: Data, more: real, consumables: bool, now: int)
      reads conversations
    {
      AtMenuOf(chat, VisitState(TextOf(d, LocationId), TextOf(d, LocationName), RefillsOf(d) + more, consumables, true),
               now)
    }

    /** The slot holds the next wizard of that visit; a refill first needs Core's list of bunkers. */
    twostate predicate Continues(chat: ChatId, visit: VisitState, flow: Flow, w: World)
      reads conversations
    {
      if flow == CoffeeRefill && !w.answered then Untouched(chat, w.now)
      else
        && chat in conversations.slots
        && conversations.slots[chat]
           == Conversation(flow, if flow == CoffeeRefill then AtPosition else AtWater,
                           map[LocationId := Text(visit.locationId), LocationName := Text(visit.locationName),
                               Refills := Num(visit.refills), Consumables := Flag(visit.consumables),
                               Started := Flag(visit.started), Draft := Text("")], w.later)
    }

    /** The slot holds a wizard without any data. */
    predicate Fresh(chat: ChatId, flow: Flow, now: int)
      reads conversations
    {
      chat in conversations.slots && conversations.slots[chat] == Conversation(flow, AtLocation, map[], now)
    }

    ghost predicate Restarted(chat: ChatId)
      reads this, conversations
    {
      Filled(chat) == 0 && chat in conversations.slots && conversations.slots[chat].data == map[]
    }

    /** What every other chat has is still what it had. */
    twostate lemma OthersOk(chat: ChatId)
      requires old(Valid()) && conversations.ttl >= 0
      requires conversations.slots - {chat} == old(conversations.slots) - {chat}
      requires filled - {chat} == old(filled) - {chat} && picks - {chat} == old(picks) - {chat}
      ensures forall c :: c != chat && c in conversations.slots ==> ConvOk(conversations.slots[c], Filled(c), Picks(c))
      ensures forall c :: c != chat ==> Filled(c) == old(Filled(c)) && Picks(c) == old(Picks(c))
    {
      forall c | c != chat ensures Filled(c) == old(Filled(c)) && Picks(c) == old(Picks(c)) {
        assert c in filled <==> c in filled - {chat};
        assert old(c in filled <==> c in filled - {chat});
        assert c in picks <==> c in picks - {chat};
        assert old(c in picks <==> c in picks - {chat});
      }
      forall c | c != chat && c in conversations.slots ensures ConvOk(conversations.slots[c], Filled(c), Picks(c)) {
        assert c in conversations.slots - {chat};
        assert c in old(conversations.slots) && conversations.slots[c] == old(conversations.slots[c]);
      }
    }

    /** The conversation of the chat, if it is live. */
    method Look(chat: ChatId, now: int) returns (c: Option<Conversation>)
      requires Valid()
      modifies conversations
      ensures Valid() && Kept(chat)
      ensures c == old(conversations.Live(chat, now)) == conversations.Live(chat, now)
      ensures chat in conversations.slots <==> c.Some?
    {
      c := conversations.Get(chat, now);
      OthersOk(chat);
    }

    /** The conversation is over. */
    method Drop(chat: ChatId)
      requires Valid()
      modifies conversations
      ensures Valid() && Kept(chat) && chat !in conversations.slots
    {
      conversations.Clear(chat);
      OthersOk(chat);
    }

    /** A conversation that agrees with the counters replaces whatever was there. */
    method Put(chat: ChatId, flow: Flow, step: Step, data: Data, now: int)
      requires Valid() && ConvOk(Conversation(flow, step, data, now), Filled(chat), Picks(chat))
      modifies conversations
      ensures Valid() && Kept(chat)
      ensures chat in conversations.slots && conversations.slots[chat] == Conversation(flow, step, data, now)
    {
      conversations.Start(chat, flow, step, data, now);
      OthersOk(chat);
    }

    /** A patch that leaves the conversation in agreement with the counters. */
    method Merge(chat: ChatId, step: Step, patch: Data, now: int)
      requires Valid()
      requires var c := conversations.Live(chat, now);
               c.Some? ==> ConvOk(Conversation(c.value.flow, step, c.value.data + patch, now), Filled(chat),
                                  Picks(chat))
      modifies conversations
      ensures Valid() && Kept(chat)
      ensures chat in conversations.slots <==> old(conversations.Live(chat, now)).Some?
      ensures chat in conversations.slots ==>
                var before := old(conversations.Live(chat, now)).value;
                conversations.slots[chat] == Conversation(before.flow, step, before.data + patch, now)
    {
      var _ := conversations.Advance(chat, step, patch, now);
      OthersOk(chat);
    }

    /** `startCoffeeRefill`, `startCoffeeConsumable`: a fresh wizard, if Core lists any location. */
    method StartWizard(chat: ChatId, flow: Flow, w: World)
      requires Valid() && (flow == CoffeeRefill || flow == CoffeeConsumable)
      modifies this, conversations
      ensures Valid() && Kept(chat) && submitted == old(submitted)
      ensures if w.answered then Fresh(chat, flow, w.later) else conversations.slots == old(conversations.slots)
    {
      if w.answered {
        Reset(chat);
        Put(chat, flow, AtLocation, map[], w.later);
      }
    }

    /** The counter of a chat restarts with its next wizard. */
    method Reset(chat: ChatId)
      requires Valid()
      modifies this`filled, conversations
      ensures Valid() && chat !in conversations.slots && Filled(chat) == 0
      ensures conversations.slots - {chat} == old(conversations.slots) - {chat}
              && filled - {chat} == old(filled) - {chat}
    {
      Drop(chat);
      filled := filled[chat := 0];
      OthersOk(chat);
    }

    /** Back to the menu of a visit that this conversation carries. */
    method ToMenu(chat: ChatId, visit: VisitState, now: int)
      requires Valid() && visit.started && visit.refills == Filled(chat) as real
      modifies conversations
      ensures Valid() && Kept(chat) && AtMenuOf(chat, visit, now)
    {
      Put(chat, CoffeeVisit, AtMenu, VisitData(visit), now);
    }

    /**
     * The cancel button of a wizard screen: a stale one leaves another wizard alone, a started visit is never dropped.
     */
    method Cancel(chat: ChatId, flow: Flow, now: int)
      requires Valid()
      modifies conversations
      ensures Valid() && Kept(chat)
      ensures var current := old(conversations.Live(chat, now));
              if current.None? || current.value.flow != flow then Untouched(chat, now)
              else if VisitFromFlow(current).Some? then AtMenuOf(chat, VisitFromFlow(current).value, now)
              else chat !in conversations.slots
    {
      var current := Look(chat, now);
      if current.Some? && current.value.flow != flow { return; }
      var visit := VisitFromFlow(current);
      if visit.Some? { ToMenu(chat, visit.value, now); } else { Drop(chat); }
    }

    /** Merging fields that are neither the counter nor the bunker and its ingredient, nor the location of a refill. */
    method Enter(chat: ChatId, step: Step, patch: Data, now: int)
      requires Valid()
      requires Refills !in patch && Started !in patch && Position !in patch && IngredientId !in patch
      requires LocationId in patch && chat in conversations.slots ==> conversations.slots[chat].flow != CoffeeRefill
      modifies conversations
      ensures Valid() && Kept(chat)
      ensures chat in conversations.slots <==> old(conversations.Live(chat, now)).Some?
      ensures chat in conversations.slots ==>
                var before := old(conversations.Live(chat, now)).value;
                conversations.slots[chat] == Conversation(before.flow, step, before.data + patch, now)
    {
      Merge(chat, step, patch, now);
    }

    /** Merging typed values: the wizard goes on with its visit and bunker. */
    method Type(chat: ChatId, step: Step, patch: Data, now: int)
      requires Valid() && patch.Keys !! VisitFields
      modifies conversations
      ensures Valid() && Kept(chat) && GoesOn(chat, now)
      ensures chat in conversations.slots ==>
                var before := old(conversations.Live(chat, now));
                before.Some?
                && conversations.slots[chat] == Conversation(before.value.flow, step, before.value.data + patch, now)
    {
      assert forall k :: k in VisitFields ==> k !in patch;
      Enter(chat, step, patch, now);
    }

    /** The field holds the value, the draft is empty, and the wizard is at the next step. */
    predicate Wrote(chat: ChatId, c: Conversation, field: Key, value: Val, next: Step, now: int)
      reads conversations
    {
      && chat in conversations.slots
      && conversations.slots[chat] == Conversation(c.flow, next, c.data + map[field := value, Draft := Text("")], now)
    }

    /** The keypad shows the draft, and nothing else has changed. */
    predicate Drafted(chat: ChatId, c: Conversation, step: Step, w: World)
      reads conversations
    {
      && chat in conversations.slots
      && conversations.slots[chat] == Conversation(c.flow, step, c.data + map[Draft := Text(w.draft)], w.now)
    }

    method Fill(chat: ChatId, field: Key, value: Val, next: Step, now: int)
      requires Valid() && field !in VisitFields && conversations.Live(chat, now).Some?
      modifies conversations
      ensures Valid() && Kept(chat) && GoesOn(chat, now)
      ensures Wrote(chat, old(conversations.slots[chat]), field, value, next, now)
    {
      Type(chat, next, map[field := value, Draft := Text("")], now);
    }

    /** The refill buttons; a bunker press rewrites the bunker and its ingredient together. */
    method RefillPress(chat: ChatId, cb: RefillCallback, w: World)
      requires Valid()
      modifies this, conversations
      ensures Valid() && Framed(chat)
      ensures !cb.PickPosition? ==> Picks(chat) == old(Picks(chat))
      ensures !cb.Press? && !cb.Lid? && !cb.DupWrite? ==> submitted == old(submitted)
      // A stale button leaves another wizard alone.
      ensures var c := old(conversations.Live(chat, w.now));
              if c.None? || c.value.flow != CoffeeRefill then
                Untouched(chat, w.now) && submitted == old(submitted) && Picks(chat) == old(Picks(chat))
              else if cb.CancelRefill? then
                if VisitFromFlow(c).Some? then AtMenuOf(chat, VisitFromFlow(c).value, w.now)
                   else chat !in conversations.slots
              else if cb.PickPosition? then
                Repositioned(chat, c.value, cb.position as real, cb.ingredient, w.now)
              else Stepped(chat, cb, c.value, w)
    {
      if cb.CancelRefill? {
        Cancel(chat, CoffeeRefill, w.now);
        return;
      }
      var conv := Look(chat, w.now);
      if conv.None? || conv.value.flow != CoffeeRefill { return; }
      if cb.PickPosition? {
        ChangePosition(chat, cb.position as real, cb.ingredient, w.now);
      } else {
        RefillStep(chat, cb, conv.value, w);
      }
    }

    /** The refill is at the new bunker with the ingredient the press named, if only none, and the pick is noted. */
    twostate predicate Repositioned(chat: ChatId, c: Conversation, position: real, ingredient: Option<string>, now: int)
      reads this, conversations
    {
      && chat in conversations.slots
      && conversations.slots[chat]
         == Conversation(CoffeeRefill, AtContainer,
                         c.data + map[Position := Num(position), Draft := Text(""),
                                      IngredientId := if ingredient.None? then NullVal else Text(ingredient.value)],
                                      now)
      && Picks(chat) == old(Picks(chat))
                        + if ingredient.None? then {}
                          else {Pick(TextOf(c.data, LocationId), position, ingredient.value)}
    }

    /** What the other buttons of a live refill do to its slot. */
    twostate predicate Stepped(chat: ChatId, cb: RefillCallback, c: Conversation, w: World)
      reads this, conversations
    {
      match cb
      case PickLocation(id) =>
        if w.found.None? then Untouched(chat, w.now)
        else Relocated(chat, c, id, w.found.value, w.later)
      case DupSkip => VisitGoesOn(chat, c.data, 0.0, IsTrue(c.data, Consumables), w.now)
      case Press(press) => Pressed(chat, press, c, w)
      case Lid(withLid) =>
        if c.step != AtLid then Untouched(chat, w.now) && submitted == old(submitted)
        else Weighed(chat, c.data + map[WeighedWithLid := Flag(withLid)], w)
      case DupWrite => Weighed(chat, c.data + map[DupConfirmed := Flag(true)], w)
      case _ => true
    }

    /** Without a submission the wizard is still open when Core has answered within its lifetime. */
    twostate predicate StaysUnlessSaved(chat: ChatId, w: World)
      reads this, conversations
    {
      submitted == old(submitted) && w.later - w.now <= conversations.ttl ==> StaysOpen(chat)
    }

    /** The refill is at the new location and has forgotten the ingredient, which was picked for another machine. */
    predicate Relocated(chat: ChatId, c: Conversation, id: string, name: string, later: int)
      reads conversations
    {
      if conversations.Expired(c, later) then chat !in conversations.slots
      else
        && chat in conversations.slots
        && conversations.slots[chat]
           == Conversation(c.flow, AtPosition, c.data + map[LocationId := Text(id), LocationName := Text(name),
                                                            IngredientId := NullVal], later)
    }

    /** The other buttons of a live refill. */
    method RefillStep(chat: ChatId, cb: RefillCallback, c: Conversation, w: World)
      requires Valid() && !cb.PickPosition? && !cb.CancelRefill?
      requires conversations.Live(chat, w.now) == Some(c) && c.flow == CoffeeRefill
      modifies this, conversations
      ensures Valid() && Kept(chat) && Stepped(chat, cb, c, w)
      ensures !cb.Press? && !cb.Lid? && !cb.DupWrite? ==> submitted == old(submitted)
    {
      match cb {
        case PickLocation(id) =>
          if w.found.Some? { ChangeLocation(chat, id, w.found.value, w.later); }
        case DupSkip => ToMenu(chat, VisitHere(c.data), w.now);
        case Lid(withLid) =>
          if c.step != AtLid { return; }
          TypeAndSave(chat, AtLid, map[WeighedWithLid := Flag(withLid)], w);
        case DupWrite => TypeAndSave(chat, AtWeight, map[DupConfirmed := Flag(true)], w);
        case Press(press) => Numpad(chat, press, c, w);
      }
    }

    method ChangeLocation(chat: ChatId, id: string, name: string, later: int)
      requires Valid() && chat in conversations.slots
      modifies conversations
      ensures Valid() && Kept(chat) && Relocated(chat, old(conversations.slots[chat]), id, name, later)
    {
      var patch: Data := map[LocationId := Text(id), LocationName := Text(name), IngredientId := NullVal];
      Merge(chat, AtPosition, patch, later);
    }

    ghost method NotePick(chat: ChatId, named: set<Pick>)
      requires Valid()
      modifies this`picks
      ensures Valid() && Picks(chat) == old(Picks(chat)) + named && picks - {chat} == old(picks) - {chat}
    {
      picks := picks[chat := Picks(chat) + named];
    }

    /** A bunker press always writes the ingredient it came with, if only as null. */
    method ChangePosition(chat: ChatId, position: real, ingredient: Option<string>, now: int)
      requires Valid() && conversations.Live(chat, now).Some? && conversations.slots[chat].flow == CoffeeRefill
      modifies this, conversations
      ensures Valid() && Framed(chat) && submitted == old(submitted)
      ensures Repositioned(chat, old(conversations.slots[chat]), position, ingredient, now)
    {
      NotePick(chat, Named(conversations.slots[chat].data, position, ingredient));
      WritePosition(chat, position, ingredient, now);
    }

    method WritePosition(chat: ChatId, position: real, ingredient: Option<string>, now: int)
      requires Valid() && conversations.Live(chat, now).Some? && conversations.slots[chat].flow == CoffeeRefill
      requires Named(conversations.slots[chat].data, position, ingredient) <= Picks(chat)
      modifies conversations
      ensures Valid() && Kept(chat) && chat in conversations.slots
      ensures conversations.slots[chat]
              == Conversation(CoffeeRefill, AtContainer,
                              old(conversations.slots[chat]).data + PositionPatch(position, ingredient), now)
    {
      Merge(chat, AtContainer, PositionPatch(position, ingredient), now);
    }

    /** What a key of a live refill does to its slot and to the submissions. */
    twostate predicate Pressed(chat: ChatId, press: NumpadPress, c: Conversation, w: World)
      reads this, conversations
    {
      if press.DigitOrErase? then Drafted(chat, c, c.step, w) && submitted == old(submitted)
      else if c.step == AtContainer || c.step == AtBefore then
        && submitted == old(submitted)
        && var field := RefillField(c.step).value;
           if Takes(c.step, press.SkipKey?, w) then
             Wrote(chat, c, field.0, Entered(c.step, press.SkipKey?, w), field.1, w.now)
           else Untouched(chat, w.now)
      else if c.step == AtWeight && press.DoneKey? && w.typed.Some? && w.typed.value > 0.0 then
        && (submitted != old(submitted) <==>
              HasBunker(c.data) && w.confirmed && (w.twin ==> IsTrue(c.data, DupConfirmed)))
        && Weighed(chat, c.data + map[FilledWeight := Num(w.typed.value), WeighedWithLid := Flag(!press.noLid),
                                      Draft := Text("")], w)
      else Untouched(chat, w.now) && submitted == old(submitted)
    }

    /**
     * These data were entered last: they are submitted exactly when they are complete and Core confirms; otherwise
     * complete ones lose nothing and leave the visit and the wizard as they are.
     */
    twostate predicate Weighed(chat: ChatId, d: Data, w: World)
      reads this, conversations
    {
      && (submitted != old(submitted) <==> w.confirmed && Complete(d, w.twin))
      && (Complete(d, false) ==> StaysUnlessSaved(chat, w) && LosesNothing(chat, d, w))
      && (submitted != old(submitted) ==> Saved(chat, d, w.later))
    }

    /**
     * The keypad of a live refill: an accepted number goes into the field of its step, a refused one changes nothing,
     * and the last key saves.
     */
    method Numpad(chat: ChatId, press: NumpadPress, c: Conversation, w: World)
      requires Valid() && conversations.Live(chat, w.now) == Some(c) && c.flow == CoffeeRefill
      modifies this, conversations
      ensures Valid() && Kept(chat) && Pressed(chat, press, c, w)
    {
      if press.DigitOrErase? {
        Type(chat, c.step, map[Draft := Text(w.draft)], w.now);
      } else if c.step == AtContainer {
        if press.SkipKey? {
          Fill(chat, ContainerNumber, NullVal, AtBefore, w.now);
        } else if ContainerNumberOk(w) {
          Fill(chat, ContainerNumber, Num(w.typed.value), AtBefore, w.now);
        }
      } else if c.step == AtBefore {
        if press.SkipKey? {
          Fill(chat, MeasuredBefore, NullVal, AtWeight, w.now);
        } else if PositiveNumber(w) {
          Fill(chat, MeasuredBefore, Num(w.typed.value), AtWeight, w.now);
        }
      } else if c.step == AtWeight && press.DoneKey? && PositiveNumber(w) {
        NumpadDone(chat, c.data, press.noLid, w);
      }
    }

    /** The last key: the weight is written and the refill saved. */
    method NumpadDone(chat: ChatId, d: Data, noLid: bool, w: World)
      requires Valid() && conversations.Live(chat, w.now).Some? && conversations.slots[chat].flow == CoffeeRefill
      requires conversations.slots[chat].data == d && PositiveNumber(w)
      modifies this, conversations
      ensures Valid() && Kept(chat)
      ensures submitted != old(submitted) <==> HasBunker(d) && w.confirmed && (w.twin ==> IsTrue(d, DupConfirmed))
      ensures Weighed(chat, d + LastKey(noLid, w), w)
    {
      LastKeyCompletes(d, noLid, w);
      TypeAndSave(chat, AtWeight, LastKey(noLid, w), w);
    }

    /** What the last key enters. */
    function LastKey(noLid: bool, w: World): Data
      requires PositiveNumber(w)
    {
      map[FilledWeight := Num(w.typed.value), WeighedWithLid := Flag(!noLid), Draft := Text("")]
    }

    lemma LastKeyCompletes(d: Data, noLid: bool, w: World)
      requires PositiveNumber(w)
      ensures Complete(d + LastKey(noLid, w), w.twin) <==> HasBunker(d) && (w.twin ==> IsTrue(d, DupConfirmed))
    {
    }

    /** One refill of these data was submitted, and the visit goes on with one more. */
    twostate predicate Saved(chat: ChatId, d: Data, now: int)
      reads this, conversations
    {
      && |submitted| == |old(submitted)| + 1 && submitted[..|old(submitted)|] == old(submitted)
      && Records(submitted[|old(submitted)|], chat, d)
      && VisitGoesOn(chat, d, 1.0, IsTrue(d, Consumables), now)
    }

    /** Without a submission everything entered is still there when Core has answered within its lifetime. */
    twostate predicate LosesNothing(chat: ChatId, d: Data, w: World)
      reads this, conversations
    {
      submitted == old(submitted) && w.later - w.now <= conversations.ttl ==>
        chat in conversations.slots && SameFields(d, conversations.slots[chat].data, TypedFields)
    }

    /** The last value is written, then `saveRefill`. */
    method TypeAndSave(chat: ChatId, step: Step, patch: Data, w: World)
      requires Valid() && conversations.Live(chat, w.now).Some? && conversations.slots[chat].flow == CoffeeRefill
      requires patch.Keys !! VisitFields
      modifies this, conversations
      ensures Valid() && Kept(chat)
      ensures Weighed(chat, old(conversations.slots[chat]).data + patch, w)
    {
      Type(chat, step, patch, w.now);
      SaveRefill(chat, w);
    }

    /** Typed container number, weight before and weight after: each goes into its own field or changes nothing. */
    method RefillText(chat: ChatId, w: World)
      requires Valid()
      modifies conversations
      ensures Valid() && Kept(chat) && GoesOn(chat, w.now)
      ensures var c := old(conversations.Live(chat, w.now));
              if c.None? || c.value.flow != CoffeeRefill || !Takes(c.value.step, w.skip, w) then Untouched(chat, w.now)
              else
                var field := RefillField(c.value.step).value;
                Wrote(chat, c.value, field.0, Entered(c.value.step, w.skip, w), field.1, w.now)
    {
      var conv := Look(chat, w.now);
      if conv.None? || conv.value.flow != CoffeeRefill { return; }
      FillStep(chat, conv.value, w);
    }

    method FillStep(chat: ChatId, c: Conversation, w: World)
      requires Valid() && conversations.Live(chat, w.now) == Some(c) && c.flow == CoffeeRefill
      modifies conversations
      ensures Valid() && Kept(chat) && GoesOn(chat, w.now)
      ensures if !Takes(c.step, w.skip, w) then Untouched(chat, w.now)
              else
                var field := RefillField(c.step).value;
                Wrote(chat, c, field.0, Entered(c.step, w.skip, w), field.1, w.now)
    {
      var value := if w.skip || w.typed.None? then NullVal else Num(w.typed.value);
      match c.step {
        case AtContainer =>
          if w.skip || ContainerNumberOk(w) { Fill(chat, ContainerNumber, value, AtBefore, w.now); }
        case AtBefore =>
          if w.skip || PositiveNumber(w) { Fill(chat, MeasuredBefore, value, AtWeight, w.now); }
        case AtWeight =>
          if PositiveNumber(w) { Fill(chat, FilledWeight, Num(w.typed.value), AtLid, w.now); }
        case _ =>
      }
    }

    /**
     * `saveRefill`: complete data that are no unconfirmed twin are submitted, and exactly a submission that Core
     * confirmed moves the conversation on and counts one; otherwise everything typed stays.
     */
    method SaveRefill(chat: ChatId, w: World)
      requires Valid()
      modifies this, conversations
      ensures Valid() && Kept(chat)
      ensures Filled(chat) == old(Filled(chat)) + (|submitted| - |old(submitted)|)
      ensures var c := old(conversations.Live(chat, w.now));
              && (|submitted| > |old(submitted)| <==> w.confirmed && Submittable(c, w.twin))
              && (c.None? || c.value.flow != CoffeeRefill ==> Untouched(chat, w.now))
              && (|submitted| == |old(submitted)| && Submittable(c, false) ==> Remains(chat, c.value, w))
              && (c.Some? && c.value.flow == CoffeeRefill && !Submittable(c, false) ==> chat !in conversations.slots)
              && (|submitted| > |old(submitted)| ==> Saved(chat, c.value.data, w.later))
    {
      var conv := Look(chat, w.now);
      if conv.None? || conv.value.flow != CoffeeRefill { return; }
      var d := conv.value.data;
      if TextOf(d, LocationId) == "" || NumOf(d, Position).None? || NumOf(d, FilledWeight).None? {
        Drop(chat);
        return;
      }
      if !IsTrue(d, DupConfirmed) && w.twin {
        Type(chat, AtDup, map[], w.later);
        return;
      }
      if !w.confirmed {
        Type(chat, AtWeight, map[Draft := Text(w.draft)], w.later);
        return;
      }
      Recorded(chat, d, w.later);
    }

    /** The refill is still there with all it holds: it asks about the twin, or for the weight once more. */
    predicate Remains(chat: ChatId, c: Conversation, w: World)
      reads conversations
    {
      if conversations.Expired(c, w.later) then chat !in conversations.slots
      else
        && chat in conversations.slots
        && conversations.slots[chat]
           == if w.twin && !IsTrue(c.data, DupConfirmed) then Conversation(c.flow, AtDup, c.data, w.later)
              else Conversation(c.flow, AtWeight, c.data + map[Draft := Text(w.draft)], w.later)
    }

    /** After a confirmed submission: the slot becomes the visit menu, one refill further. */
    method Recorded(chat: ChatId, d: Data, now: int)
      requires Valid() && RefillsOf(d) == Filled(chat) as real
      requires TextOf(d, LocationId) != "" && NumOf(d, Position).Some? && NumOf(d, FilledWeight).Some?
      requires PickedHere(RefillOf(chat, d), Picks(chat))
      modifies this, conversations
      ensures Valid() && Kept(chat) && Saved(chat, d, now) && Filled(chat) == old(Filled(chat)) + 1
    {
      RefillRecords(chat, d);
      Drop(chat);
      Confirm(chat, RefillOf(chat, d));
      ToMenu(chat, AfterRefill(d), now);
    }

    /** Notes one confirmed submission of a chat without a conversation. */
    ghost method Confirm(chat: ChatId, r: Refill)
      requires Valid() && chat !in conversations.slots && r.chat == chat && PickedHere(r, Picks(chat))
      modifies this`submitted, this`filled
      ensures Valid() && submitted == old(submitted) + [r] && Filled(chat) == old(Filled(chat)) + 1
      ensures filled - {chat} == old(filled) - {chat}
    {
      submitted := submitted + [r];
      filled := filled[chat := Filled(chat) + 1];
    }

    /** `continueVisitRefill`, `continueVisitConsumable`: the visit goes on at its location. */
    method ContinueVisit(chat: ChatId, visit: VisitState, flow: Flow, w: World)
      requires Valid() && (flow == CoffeeRefill || flow == CoffeeConsumable) && visit.refills == Filled(chat) as real
      modifies conversations
      ensures Valid() && Kept(chat) && Continues(chat, visit, flow, w)
    {
      if flow == CoffeeRefill && !w.answered { return; }
      Put(chat, flow, if flow == CoffeeRefill then AtPosition else AtWater, VisitData(visit)[Draft := Text("")],
          w.later);
    }

    /** The buttons of the visit menu, which stay in the chat for ever. */
    method VisitPress(chat: ChatId, cb: VisitCallback, w: World)
      requires Valid()
      modifies this, conversations
      ensures Valid() && Kept(chat) && submitted == old(submitted)
      ensures var c := old(conversations.Live(chat, w.now));
              var visit := VisitFromFlow(c);
              // A live conversation that carries no started visit, of whatever wizard, is left alone.
              if (c.Some? && visit.None?) || (!cb.Finish? && !w.permitted) then Untouched(chat, w.now)
              else if cb.NextLocation? then
                if w.answered && !(c.Some? && c.value.flow == CoffeeRefill && c.value.step == AtLocation) then
                  Fresh(chat, CoffeeRefill, w.later)
                else Untouched(chat, w.now)
              else if visit.None? then Untouched(chat, w.now)
              // A started visit goes on at its location, with its count, until it is finished.
              else if cb.Finish? then chat !in conversations.slots
              else Continues(chat, visit.value, if cb.More? then CoffeeRefill else CoffeeConsumable, w)
    {
      var conv := Look(chat, w.now);
      var visit := VisitFromFlow(conv);
      if cb.NextLocation? && ChoosesLocation(conv) { return; }
      if conv.Some? && visit.None? { return; }
      if !cb.Finish? && !w.permitted { return; }
      if cb.NextLocation? {
        StartWizard(chat, CoffeeRefill, w);
        return;
      }
      if visit.None? { return; }
      match cb {
        case More => ContinueVisit(chat, visit.value, CoffeeRefill, w);
        case Cons => ContinueVisit(chat, visit.value, CoffeeConsumable, w);
        case Finish => Drop(chat);
        case NextLocation =>
      }
    }

    /** The consumables buttons; a stale one leaves another wizard alone. */
    method ConsumablePress(chat: ChatId, cb: ConsumableCallback, w: World)
      requires Valid() && (cb.Fix? ==> cb.field in {Water, Cups, Lids})
      modifies this, conversations
      ensures Valid() && Kept(chat) && submitted == old(submitted)
      ensures var c := old(conversations.Live(chat, w.now));
              if c.None? || c.value.flow != CoffeeConsumable then Untouched(chat, w.now)
              else if !cb.CancelCons? then CountedOn(chat, cb, c.value, w)
              else if VisitFromFlow(c).Some? then AtMenuOf(chat, VisitFromFlow(c).value, w.now)
              else chat !in conversations.slots
    {
      if cb.CancelCons? {
        Cancel(chat, CoffeeConsumable, w.now);
        return;
      }
      var conv := Look(chat, w.now);
      if conv.None? || conv.value.flow != CoffeeConsumable { return; }
      ConsumableStep(chat, cb, conv.value, w);
    }

    /** The other buttons of a live consumables wizard. */
    method ConsumableStep(chat: ChatId, cb: ConsumableCallback, c: Conversation, w: World)
      requires Valid() && !cb.CancelCons? && (cb.Fix? ==> cb.field in {Water, Cups, Lids})
      requires conversations.Live(chat, w.now) == Some(c) && c.flow == CoffeeConsumable
      modifies conversations
      ensures Valid() && Kept(chat) && CountedOn(chat, cb, c, w)
    {
      match cb {
        case ConsLocation(id) =>
          if w.found.Some? { Enter(chat, AtWater, LocationPatch(id, w.found.value), w.later); }
        case Fix(field) =>
          Type(chat, if field == Water then AtWater else if field == Cups then AtCups else AtLids,
               map[Draft := Text(""), Fixing := Flag(true)], w.now);
        case SaveCons =>
          if TextOf(c.data, LocationId) == "" || !w.confirmed { return; }
          ToMenu(chat, VisitHere(c.data).(consumables := true), w.later);
        case ConsPress(press) => EnterCount(chat, c, press.DigitOrErase?, w);
      }
    }

    /** What the other buttons of a live consumables wizard do to its slot. */
    twostate predicate CountedOn(chat: ChatId, cb: ConsumableCallback, c: Conversation, w: World)
      reads conversations
    {
      match cb
      case ConsLocation(id) =>
        if w.found.None? then Untouched(chat, w.now) else ConsumablesAt(chat, c, id, w.found.value, w.later)
      case SaveCons =>
        if TextOf(c.data, LocationId) == "" || !w.confirmed then Untouched(chat, w.now)
        else VisitGoesOn(chat, c.data, 0.0, true, w.later)
      case Fix(field) =>
        && chat in conversations.slots
        && conversations.slots[chat]
           == Conversation(c.flow, if field == Water then AtWater else if field == Cups then AtCups else AtLids,
                           c.data + map[Draft := Text(""), Fixing := Flag(true)], w.now)
      case ConsPress(press) =>
        && GoesOn(chat, w.now)
        && if CountField(c.step).None? then Untouched(chat, w.now)
           else if press.DigitOrErase? then Drafted(chat, c, c.step, w)
           else if Count(w) < 0.0 then Untouched(chat, w.now)
           else Counted(chat, c, w)
      case CancelCons => true
    }

    /** The consumables wizard is at the new location. */
    predicate ConsumablesAt(chat: ChatId, c: Conversation, id: string, name: string, later: int)
      reads conversations
    {
      if conversations.Expired(c, later) then chat !in conversations.slots
      else
        && chat in conversations.slots
        && conversations.slots[chat]
           == Conversation(c.flow, AtWater, c.data + map[LocationId := Text(id), LocationName := Text(name),
                                                         Draft := Text(""), Fixing := Flag(false)], later)
    }

    /** A count goes into the field of its step, or changes nothing; a correction goes straight to the confirmation. */
    ghost predicate Counted(chat: ChatId, c: Conversation, w: World)
      requires CountField(c.step).Some?
      reads conversations
    {
      var field := CountField(c.step).value;
      if IsTrue(c.data, Fixing) || field.0 == Lids then
        && chat in conversations.slots
        && conversations.slots[chat]
           == Conversation(c.flow, AtConfirm,
                           c.data + map[field.0 := Num(Count(w)), Draft := Text(""), Fixing := Flag(false)], w.now)
      else Wrote(chat, c, field.0, Num(Count(w)), field.1, w.now)
    }

    /** A number for the current field, from the keypad or typed. */
    method EnterCount(chat: ChatId, c: Conversation, drafting: bool, w: World)
      requires Valid() && conversations.Live(chat, w.now) == Some(c)
      modifies conversations
      ensures Valid() && Kept(chat) && GoesOn(chat, w.now)
      ensures if CountField(c.step).None? then Untouched(chat, w.now)
              else if drafting then Drafted(chat, c, c.step, w)
              else if Count(w) < 0.0 then Untouched(chat, w.now)
              else Counted(chat, c, w)
    {
      var field := match c.step
                   case AtWater => Some(Water)
                   case AtCups => Some(Cups)
                   case AtLids => Some(Lids)
                   case _ => None;
      if field.None? { return; }
      if drafting {
        Type(chat, c.step, map[Draft := Text(w.draft)], w.now);
        return;
      }
      var value := if w.skip then 0.0 else if w.typed.Some? then w.typed.value else -1.0;
      if value < 0.0 { return; }
      if IsTrue(c.data, Fixing) || field.value == Lids {
        LastCount(chat, field.value, Num(value), w.now);
      } else {
        Fill(chat, field.value, Num(value), if field.value == Water then AtCups else AtLids, w.now);
      }
    }

    /** The last missing count, or a corrected one. */
    method LastCount(chat: ChatId, field: Key, value: Val, now: int)
      requires Valid() && field in {Water, Cups, Lids} && conversations.Live(chat, now).Some?
      modifies conversations
      ensures Valid() && Kept(chat) && GoesOn(chat, now) && chat in conversations.slots
      ensures var c := old(conversations.slots[chat]);
              conversations.slots[chat]
              == Conversation(c.flow, AtConfirm, c.data + map[field := value, Draft := Text(""), Fixing := Flag(false)],
                              now)
    {
      Type(chat, AtConfirm, map[field := value, Draft := Text(""), Fixing := Flag(false)], now);
    }

    /** All three counts at once. */
    predicate CountedAll(chat: ChatId, c: Conversation, n: (real, real, real), now: int)
      reads conversations
    {
      && chat in conversations.slots
      && conversations.slots[chat]
         == Conversation(c.flow, AtConfirm,
                         c.data + map[Water := Num(n.0), Cups := Num(n.1), Lids := Num(n.2), Draft := Text("")], now)
    }

    /** Typed counts: `triple` is the three numbers at once. */
    method ConsumableText(chat: ChatId, triple: Option<(real, real, real)>, w: World)
      requires Valid()
      modifies conversations
      ensures Valid() && Kept(chat) && GoesOn(chat, w.now)
      ensures var c := old(conversations.Live(chat, w.now));
              if c.None? || c.value.flow != CoffeeConsumable then Untouched(chat, w.now)
              else if triple.Some? then CountedAll(chat, c.value, triple.value, w.now)
              else if CountField(c.value.step).None? || Count(w) < 0.0 then Untouched(chat, w.now)
              else Counted(chat, c.value, w)
    {
      var conv := Look(chat, w.now);
      if conv.None? || conv.value.flow != CoffeeConsumable { return; }
      if triple.Some? {
        EnterAll(chat, triple.value, w.now);
      } else {
        EnterCount(chat, conv.value, false, w);
      }
    }

    method EnterAll(chat: ChatId, n: (real, real, real), now: int)
      requires Valid() && conversations.Live(chat, now).Some?
      modifies conversations
      ensures Valid() && Kept(chat) && GoesOn(chat, now)
      ensures CountedAll(chat, old(conversations.slots[chat]), n, now)
    {
      Type(chat, AtConfirm, map[Water := Num(n.0), Cups := Num(n.1), Lids := Num(n.2), Draft := Text("")], now);
    }

    /** The typed word «отмена»: inside a started visit only the step is dropped. */
    method CancelWord(chat: ChatId, now: int)
      requires Valid()
      modifies conversations
      ensures Valid() && Kept(chat)
      ensures var active := old(conversations.Live(chat, now));
              if active.Some? && active.value.flow != CoffeeVisit && VisitFromFlow(active).Some?
              then AtMenuOf(chat, VisitFromFlow(active).value, now)
              else chat !in conversations.slots
    {
      var active := Look(chat, now);
      if active.None? { return; }
      var visit := VisitFromFlow(active);
      if visit.Some? && active.value.flow != CoffeeVisit {
        ToMenu(chat, visit.value, now);
      } else {
        Drop(chat);
      }
    }

    /**
     * A menu button; `other` is the wizard any other item starts. Inside a started visit the buttons of the same work
     * go on at its location; everything else replaces the conversation.
     */
    method MenuPress(chat: ChatId, refill: bool, consumable: bool, other: Conversation, w: World)
      requires Valid() && other.flow.OtherFlow?
      modifies this, conversations
      ensures Valid() && Kept(chat) && submitted == old(submitted)
      ensures var visit := VisitFromFlow(old(conversations.Live(chat, w.now)));
              var flow := if consumable then CoffeeConsumable else CoffeeRefill;
              if visit.Some? && (refill || consumable) then Continues(chat, visit.value, flow, w)
              else if !refill && !consumable then
                chat in conversations.slots && conversations.slots[chat] == other.(at := w.now)
              else if w.answered then Fresh(chat, flow, w.later) else chat !in conversations.slots
    {
      var prev := Look(chat, w.now);
      var visit := VisitFromFlow(prev);
      var flow := if consumable then CoffeeConsumable else CoffeeRefill;
      if visit.Some? && (refill || consumable) {
        ContinueVisit(chat, visit.value, flow, w);
        return;
      }
      Drop(chat);
      if refill || consumable {
        StartWizard(chat, flow, w);
      } else {
        Put(chat, other.flow, other.step, other.data, w.now);
      }
    }

    method SweepExpired(now: int)
      requires Valid()
      modifies conversations
      ensures Valid() && submitted == old(submitted) && forall chat :: Untouched(chat, now)
    {
      conversations.Sweep(now);
    }
  }

  /** The presses of one more refill: «another bunker», its button, two skipped fields and the weight. */
  datatype Presses = Presses(more: World, position: World, container: World, before: World, weight: World)

  /** Each press comes before the conversation expires, Core answers, and the weight is a number it confirms. */
  predicate InTime(ps: Presses, since: int, ttl: int) {
    && ps.more.now - since <= ttl && ps.position.now - ps.more.later <= ttl
    && ps.container.now - ps.position.now <= ttl && ps.before.now - ps.container.now <= ttl
    && ps.weight.now - ps.before.now <= ttl
    && ps.more.permitted && ps.more.answered && PositiveNumber(ps.weight) && ps.weight.confirmed && !ps.weight.twin
  }

  /** The refill wizard of that visit at that bunker. */
  ghost predicate OnBunker(bot: CoffeeBot, chat: ChatId, visit: VisitState, position: nat, step: Step, at: int)
    reads bot, bot.conversations
  {
    && chat in bot.conversations.slots
    && var c := bot.conversations.slots[chat];
       c.flow == CoffeeRefill && c.step == step && c.at == at && Carries(c.data, visit)
       && NumOf(c.data, Position) == Some(position as real)
  }

  /** Nothing was submitted, and the count goes on. */
  twostate predicate NothingSaved(bot: CoffeeBot, chat: ChatId)
    reads bot
  {
    bot.submitted == old(bot.submitted) && bot.Filled(chat) == old(bot.Filled(chat))
  }

  /** A live conversation of the wizard, as the press that comes in time finds it. */
  lemma StillLive(bot: CoffeeBot, chat: ChatId, now: int)
    requires chat in bot.conversations.slots
    requires now - bot.conversations.slots[chat].at <= bot.conversations.ttl
    ensures bot.conversations.Live(chat, now) == Some(bot.conversations.slots[chat])
  {
  }

  /** «Another bunker»: the wizard asks for the bunker. */
  method OpenWizard(bot: CoffeeBot, chat: ChatId, ghost visit: VisitState, ghost since: int, w: World)
    requires bot.Valid() && bot.AtMenuOf(chat, visit, since) && w.now - since <= bot.conversations.ttl
    requires visit.started && visit.locationId != "" && visit.locationName != "" && w.permitted && w.answered
    modifies bot, bot.conversations
    ensures bot.Valid() && NothingSaved(bot, chat) && bot.Continues(chat, visit, CoffeeRefill, w)
  {
    StillLive(bot, chat, w.now);
    VisitSeenExactly(bot.conversations.slots[chat], visit);
    bot.VisitPress(chat, More, w);
    assert LocationId in bot.conversations.slots[chat].data;
  }

  /** Its button: the bunker is chosen. */
  method PickBunker(bot: CoffeeBot, chat: ChatId, ghost visit: VisitState, position: nat, w: World)
    requires bot.Valid() && chat in bot.conversations.slots && Carries(bot.conversations.slots[chat].data, visit)
    requires bot.conversations.slots[chat].flow == CoffeeRefill
    requires w.now - bot.conversations.slots[chat].at <= bot.conversations.ttl
    modifies bot, bot.conversations
    ensures bot.Valid() && NothingSaved(bot, chat) && OnBunker(bot, chat, visit, position, AtContainer, w.now)
  {
    StillLive(bot, chat, w.now);
    bot.RefillPress(chat, PickPosition(position, None), w);
    assert Position in bot.conversations.slots[chat].data;
  }

  lemma FieldSkipped(d: Data, visit: VisitState, position: nat, field: Key)
    requires Carries(d, visit) && NumOf(d, Position) == Some(position as real)
    requires field == ContainerNumber || field == MeasuredBefore
    ensures var d' := d + map[field := NullVal, Draft := Text("")];
            d' != map[] && Carries(d', visit) && NumOf(d', Position) == Some(position as real)
  {
    assert Position in d + map[field := NullVal, Draft := Text("")];
  }

  /** A field that may be left out. */
  method SkipField(bot: CoffeeBot, chat: ChatId, ghost visit: VisitState, ghost position: nat, ghost step: Step,
                   ghost at: int, w: World)
    requires bot.Valid() && OnBunker(bot, chat, visit, position, step, at) && w.now - at <= bot.conversations.ttl
    requires step == AtContainer || step == AtBefore
    modifies bot, bot.conversations
    ensures bot.Valid() && NothingSaved(bot, chat)
    ensures OnBunker(bot, chat, visit, position, if step == AtContainer then AtBefore else AtWeight, w.now)
  {
    StillLive(bot, chat, w.now);
    ghost var c := bot.conversations.slots[chat];
    ghost var (field, next) := RefillField(step).value;
    FieldSkipped(c.data, visit, position, field);
    hide Carries, NumOf;
    bot.RefillPress(chat, Press(SkipKey), w);
    assert bot.Wrote(chat, c, field, NullVal, next, w.now);
  }

  /** The data of the wizard with the last weight. */
  predicate WithWeight(d: Data, visit: VisitState, position: nat, w: World) {
    && Carries(d, visit) && NumOf(d, Position) == Some(position as real) && FilledWeight in d && w.typed.Some?
    && d[FilledWeight] == Num(w.typed.value)
  }

  lemma EnteredData(d: Data, visit: VisitState, position: nat, w: World)
    requires Carries(d, visit) && NumOf(d, Position) == Some(position as real) && w.typed.Some?
    requires visit.locationId != ""
    ensures HasBunker(d)
    ensures WithWeight(d + map[FilledWeight := Num(w.typed.value), WeighedWithLid := Flag(true), Draft := Text("")],
                       visit, position, w)
  {
  }

  lemma RecordNames(r: Refill, chat: ChatId, d: Data, visit: VisitState, position: nat, w: World)
    requires Records(r, chat, d) && WithWeight(d, visit, position, w)
    ensures r.chat == chat && r.locationId == visit.locationId && r.position == position as real
            && Nearest(r.filledWeight, w.typed.value)
  {
  }

  lemma MenuGoesOn(bot: CoffeeBot, chat: ChatId, d: Data, visit: VisitState, now: int)
    requires bot.VisitGoesOn(chat, d, 1.0, IsTrue(d, Consumables), now) && Carries(d, visit) && visit.started
    ensures bot.AtMenuOf(chat, visit.(refills := visit.refills + 1.0), now)
  {
  }

  /** The last key of a refill with a bunker. */
  method PressDone(bot: CoffeeBot, chat: ChatId, w: World)
    requires bot.Valid() && PositiveNumber(w) && w.confirmed && !w.twin
    requires var c := bot.conversations.Live(chat, w.now);
             c.Some? && c.value.flow == CoffeeRefill && c.value.step == AtWeight && HasBunker(c.value.data)
    modifies bot, bot.conversations
    ensures bot.Valid() && bot.Filled(chat) == old(bot.Filled(chat)) + 1
    ensures bot.Saved(chat, old(bot.conversations.slots[chat]).data
                              + map[FilledWeight := Num(w.typed.value), WeighedWithLid := Flag(true),
                                    Draft := Text("")], w.later)
  {
    bot.RefillPress(chat, Press(DoneKey(false)), w);
    assert LocationId in bot.conversations.slots[chat].data;
  }

  /** The weight: the refill is recorded. */
  method WeighIn(bot: CoffeeBot, chat: ChatId, ghost visit: VisitState, ghost position: nat, ghost at: int, w: World)
    requires bot.Valid() && OnBunker(bot, chat, visit, position, AtWeight, at) && w.now - at <= bot.conversations.ttl
    requires visit.started && visit.locationId != "" && PositiveNumber(w) && w.confirmed && !w.twin
    modifies bot, bot.conversations
    ensures bot.Valid() && Recorded(bot, chat, visit, position, w)
  {
    StillLive(bot, chat, w.now);
    ghost var d := bot.conversations.slots[chat].data
                   + map[FilledWeight := Num(w.typed.value), WeighedWithLid := Flag(true), Draft := Text("")];
    EnteredData(bot.conversations.slots[chat].data, visit, position, w);
    PressDone(bot, chat, w);
    RecordNames(bot.submitted[|old(bot.submitted)|], chat, d, visit, position, w);
    MenuGoesOn(bot, chat, d, visit, w.later);
  }

  /** One more record of that visit, and its menu with one more. */
  twostate predicate Recorded(bot: CoffeeBot, chat: ChatId, visit: VisitState, position: nat, w: World)
    requires PositiveNumber(w)
    reads bot, bot.conversations
  {
    && |bot.submitted| == |old(bot.submitted)| + 1 && old(bot.submitted) <= bot.submitted
    && (var r := bot.submitted[|old(bot.submitted)|];
        && r.chat == chat && r.locationId == visit.locationId && r.position == position as real
        && Nearest(r.filledWeight, w.typed.value))
    && bot.Filled(chat) == old(bot.Filled(chat)) + 1
    && bot.AtMenuOf(chat, visit.(refills := visit.refills + 1.0), w.later)
  }

  /** From the menu of a begun visit one more refill is recorded at the same location. */
  method AnotherBunker(bot: CoffeeBot, chat: ChatId, ghost visit: VisitState, ghost since: int, position: nat,
                       ps: Presses)
    requires bot.Valid() && bot.AtMenuOf(chat, visit, since) && InTime(ps, since, bot.conversations.ttl)
    requires visit.started && visit.locationId != "" && visit.locationName != ""
    modifies bot, bot.conversations
    ensures bot.Valid() && Recorded(bot, chat, visit, position, ps.weight)
  {
    OpenWizard(bot, chat, visit, since, ps.more);
    PickBunker(bot, chat, visit, position, ps.position);
    SkipField(bot, chat, visit, position, AtContainer, ps.position.now, ps.container);
    SkipField(bot, chat, visit, position, AtBefore, ps.container.now, ps.before);
    WeighIn(bot, chat, visit, position, ps.before.now, ps.weight);
  }

  /** A refill and another one on the same visit: both records name the same place, and the count rises by two. */
  method TwoRefills(bot: CoffeeBot, chat: ChatId, w: World, position: nat, ps: Presses)
    requires bot.Valid() && Submittable(bot.conversations.Live(chat, w.now), w.twin) && w.confirmed
    requires TextOf(bot.conversations.slots[chat].data, LocationName) != ""
    requires InTime(ps, w.later, bot.conversations.ttl)
    modifies bot, bot.conversations
    ensures |bot.submitted| == |old(bot.submitted)| + 2 && old(bot.submitted) <= bot.submitted
    ensures var n := |old(bot.submitted)|;
            && bot.submitted[n].locationId == TextOf(old(bot.conversations.slots[chat]).data, LocationId)
            && bot.submitted[n + 1].locationId == bot.submitted[n].locationId
    ensures bot.Filled(chat) == old(bot.Filled(chat)) + 2
    ensures chat in bot.conversations.slots
            && RefillsOf(bot.conversations.slots[chat].data) == RefillsOf(old(bot.conversations.slots[chat]).data) + 2.0
  {
    ghost var d := bot.conversations.slots[chat].data;
    bot.SaveRefill(chat, w);
    ghost var visit := VisitState(TextOf(d, LocationId), TextOf(d, LocationName), RefillsOf(d) + 1.0,
                                  IsTrue(d, Consumables), true);
    AnotherBunker(bot, chat, visit, w.later, position, ps);
  }
}
