/**
 * The reminder list of the airtime screen (day6-expo-airtime/App.js):
 * loading it from device storage, adding a validated reminder, deleting by
 * id, and the rule that the in-memory list only changes when the storage
 * write succeeds.
 *
 * Storage reads and writes are asynchronous in the source; here each is an
 * explicit outcome passed in by the caller. The stored JSON text is
 * represented by the list it encodes (`Holds`), or by `Unreadable` for a
 * value that is empty or that `JSON.parse` rejects.
 */
module Store {
  import opened Wrappers
  import Phone

  /** One reminder as built by `handleAdd`. */
  datatype Reminder = Reminder(id: string, phone: string, amount: real, createdAt: string)

  /** What the storage key holds. */
  datatype Stored = Absent | Unreadable | Holds(list: seq<Reminder>)

  /** The three alerts the screen can raise. */
  datatype Alert = InvalidPhone | InvalidAmount | SaveError

  /** The screen's list together with the content of its storage key. */
  datatype App = App(reminders: seq<Reminder>, stored: Stored)

  /** The state after one user action, the alert it raised if any, and whether
      the form fields were cleared. */
  datatype Step = Step(app: App, alert: Option<Alert>, clearsForm: bool)

  // ---------------------------------------------------------------------------
  // Loading

  /** The list the screen shows after its initial load: the stored list when
      the read succeeds and the key holds a parsable value, and otherwise the
      initial empty list (a missing key, an empty or corrupt value and a failed
      read are all silently treated as "no reminders"). */
  function Load(stored: Stored, read: IoOutcome): (r: seq<Reminder>)
    ensures read.Succeeded? && stored.Holds? ==> r == stored.list
    ensures !(read.Succeeded? && stored.Holds?) ==> r == []
  {
    match read
    case Failed => []
    case Succeeded =>
      match stored
      case Holds(list) => list
      case _ => []
  }

  /** The screen right after start-up. */
  function Startup(stored: Stored, read: IoOutcome): (r: App)
    ensures r.stored == stored
    ensures r.reminders == Load(stored, read)
  {
    App(Load(stored, read), stored)
  }

  /** A reload would show exactly what the screen shows now. */
  predicate Synced(app: App) {
    Load(app.stored, Succeeded) == app.reminders
  }

  // ---------------------------------------------------------------------------
  // Saving

  /** `saveReminders(list)`: the new list replaces both the stored value and
      the shown list when the write succeeds; when it fails, nothing changes
      and a save error is raised. */
  function Commit(app: App, list: seq<Reminder>, write: IoOutcome): (r: Step)
    ensures write.Succeeded? ==> r.app.reminders == list && Load(r.app.stored, Succeeded) == list
    ensures write.Succeeded? ==> r.alert.None?
    ensures write.Failed? ==> r.app == app && r.alert == Some(SaveError)
    ensures !r.clearsForm
  {
    match write
    case Succeeded => Step(App(list, Holds(list)), None, false)
    case Failed => Step(app, Some(SaveError), false)
  }

  // ---------------------------------------------------------------------------
  // Adding

  /** The amount check `!amt || amt <= 0`, with `None` standing for NaN:
      exactly the strictly positive amounts pass; zero, NaN and negative
      amounts are refused. */
  predicate AmountOk(amount: Option<real>)
    ensures AmountOk(amount) <==> amount.Some? && amount.value > 0.0
  {
    amount.Some? && amount.value != 0.0 && !(amount.value <= 0.0)
  }

  /** No reminder in the list has this id. */
  predicate Fresh(list: seq<Reminder>, id: string) {
    forall i :: 0 <= i < |list| ==> list[i].id != id
  }

  /** `handleAdd`: the trimmed phone is normalised and the amount checked, in
      that order; the first failure raises its alert and changes nothing. A
      valid pair appends one reminder with the normalised phone to the end of
      the list, which is then committed; the form is cleared whether or not
      the write succeeds. */
  function HandleAdd(app: App, phone: string, amount: Option<real>, id: string, createdAt: string,
                     write: IoOutcome): (r: Step)
    requires Fresh(app.reminders, id)
    ensures Phone.Normalize(phone).None? ==> r == Step(app, Some(InvalidPhone), false)
    ensures Phone.Normalize(phone).Some? && !AmountOk(amount) ==> r == Step(app, Some(InvalidAmount), false)
    ensures Phone.Normalize(phone).Some? && AmountOk(amount) ==>
      && r.clearsForm
      && (write.Succeeded? ==>
            r.app.reminders == app.reminders + [Reminder(id, Phone.Normalize(phone).value, amount.value, createdAt)]
            && r.alert.None? && Synced(r.app))
      && (write.Failed? ==> r.app == app && r.alert == Some(SaveError))
    ensures Synced(app) ==> Synced(r.app)
  {
    Phone.TrimInvisible(Phone.TailOk, phone);
    var n := Phone.Normalize(Phone.Trim(phone));
    if n.None? then Step(app, Some(InvalidPhone), false)
    else if !AmountOk(amount) then Step(app, Some(InvalidAmount), false)
    else
      var item := Reminder(id, n.value, amount.value, createdAt);
      var saved := Commit(app, app.reminders + [item], write);
      Step(saved.app, saved.alert, true)
  }

  // ---------------------------------------------------------------------------
  // Deleting

  /** `reminders.filter(r => r.id !== id)`. */
  function Without(list: seq<Reminder>, id: string): (r: seq<Reminder>)
    ensures forall x :: x in r <==> x in list && x.id != id
    ensures |r| <= |list|
    ensures Fresh(list, id) ==> r == list
    ensures Fresh(r, id)
  {
    if list == [] then []
    else if list[0].id == id then Without(list[1..], id)
    else [list[0]] + Without(list[1..], id)
  }

  /** `handleDelete(id)`: the filtered list is committed. */
  function HandleDelete(app: App, id: string, write: IoOutcome): (r: Step)
    ensures write.Succeeded? ==> r.app.reminders == Without(app.reminders, id) && r.alert.None? && Synced(r.app)
    ensures write.Failed? ==> r.app == app && r.alert == Some(SaveError)
    ensures Synced(app) ==> Synced(r.app)
    ensures !r.clearsForm
  {
    Commit(app, Without(app.reminders, id), write)
  }

  /** The filter keeps the relative order: it distributes over concatenation. */
  lemma {:induction false} WithoutAppend(a: seq<Reminder>, b: seq<Reminder>, id: string)
    ensures Without(a + b, id) == Without(a, id) + Without(b, id)
    decreases |a|
  {
    if a == [] {
      assert a + b == b;
    } else {
      assert (a + b)[0] == a[0];
      assert (a + b)[1..] == a[1..] + b;
      WithoutAppend(a[1..], b, id);
    }
  }

  /** Deleting twice is deleting once: after a committed delete, a second
      delete of the same id changes nothing, whatever the outcome of its write. */
  lemma DeleteIdempotent(app: App, id: string, w2: IoOutcome)
    ensures var once := HandleDelete(app, id, Succeeded).app;
            HandleDelete(once, id, w2).app == once
  {
  }

  /** Deleting the reminder just added restores the list it was added to. */
  lemma DeleteUndoesAdd(list: seq<Reminder>, item: Reminder)
    requires Fresh(list, item.id)
    ensures Without(list + [item], item.id) == list
  {
    WithoutAppend(list, [item], item.id);
    assert Without([item], item.id) == [];
  }

  // ---------------------------------------------------------------------------
  // Invariant of lists built by the screen

  predicate UniqueIds(list: seq<Reminder>) {
    forall i, j :: 0 <= i < j < |list| ==> list[i].id != list[j].id
  }

  /** Every reminder the screen creates has a canonical phone (as the source's
      patterns define it), a positive amount and an id of its own. */
  predicate WellFormed(list: seq<Reminder>) {
    && UniqueIds(list)
    && (forall i :: 0 <= i < |list| ==> Phone.CanonicalBy(Phone.TailOk, list[i].phone))
    && (forall i :: 0 <= i < |list| ==> list[i].amount > 0.0)
  }

  /** The filter of a list with distinct ids removes at most the one matching
      position and keeps every other reminder in place. */
  lemma WithoutRemovesOne(list: seq<Reminder>, k: nat)
    requires UniqueIds(list)
    requires k < |list|
    ensures Without(list, list[k].id) == list[..k] + list[k + 1..]
  {
    var id := list[k].id;
    var before, after := list[..k], list[k + 1..];
    assert Fresh(before, id) by {
      forall i | 0 <= i < |before|
        ensures before[i].id != id
      {
        assert before[i] == list[i];
      }
    }
    assert Fresh(after, id) by {
      forall i | 0 <= i < |after|
        ensures after[i].id != id
      {
        assert after[i] == list[k + 1 + i];
      }
    }
    assert Without([list[k]], id) == [];
    assert list == before + [list[k]] + after;
    assert Without(before + [list[k]], id) == before by {
      WithoutAppend(before, [list[k]], id);
    }
    WithoutAppend(before + [list[k]], after, id);
  }

  /** Distinct ids, split at the head. */
  lemma UniqueCons(x: Reminder, rest: seq<Reminder>)
    ensures UniqueIds([x] + rest) <==> Fresh(rest, x.id) && UniqueIds(rest)
  {
    var s := [x] + rest;
    if Fresh(rest, x.id) && UniqueIds(rest) {
      forall i, j | 0 <= i < j < |s|
        ensures s[i].id != s[j].id
      {
        assert s[j] == rest[j - 1];
        if i > 0 {
          assert s[i] == rest[i - 1];
        }
      }
    }
    if UniqueIds(s) {
      forall i | 0 <= i < |rest|
        ensures rest[i].id != x.id
      {
        assert rest[i] == s[i + 1];
        assert s[0].id != s[i + 1].id;
      }
      forall i, j | 0 <= i < j < |rest|
        ensures rest[i].id != rest[j].id
      {
        assert rest[i] == s[i + 1] && rest[j] == s[j + 1];
      }
    }
  }

  lemma {:induction false} WithoutKeepsUnique(list: seq<Reminder>, id: string)
    requires UniqueIds(list)
    ensures UniqueIds(Without(list, id))
  {
    if list != [] {
      var rest := list[1..];
      assert list == [list[0]] + rest;
      UniqueCons(list[0], rest);
      WithoutKeepsUnique(rest, id);
      if list[0].id != id {
        var r := Without(rest, id);
        assert Fresh(r, list[0].id) by {
          forall i | 0 <= i < |r|
            ensures r[i].id != list[0].id
          {
            assert r[i] in rest;
          }
        }
        UniqueCons(list[0], r);
      }
    }
  }

  /** Deleting keeps every remaining reminder well formed. */
  lemma DeletePreservesWellFormed(app: App, id: string, write: IoOutcome)
    requires WellFormed(app.reminders)
    ensures WellFormed(HandleDelete(app, id, write).app.reminders)
  {
    var r := Without(app.reminders, id);
    WithoutKeepsUnique(app.reminders, id);
    forall i | 0 <= i < |r|
      ensures Phone.CanonicalBy(Phone.TailOk, r[i].phone) && r[i].amount > 0.0
    {
      assert r[i] in app.reminders;
    }
  }

  /** Appending a well-formed reminder with a fresh id keeps a list well formed. */
  lemma AppendPreservesWellFormed(list: seq<Reminder>, item: Reminder)
    requires WellFormed(list) && Fresh(list, item.id)
    requires Phone.CanonicalBy(Phone.TailOk, item.phone) && item.amount > 0.0
    ensures WellFormed(list + [item])
  {
    var r := list + [item];
    forall i, j | 0 <= i < j < |r|
      ensures r[i].id != r[j].id
    {
      assert r[i] == list[i];
      if j < |list| {
        assert r[j] == list[j];
      }
    }
    forall i | 0 <= i < |r|
      ensures Phone.CanonicalBy(Phone.TailOk, r[i].phone) && r[i].amount > 0.0
    {
      if i < |list| {
        assert r[i] == list[i];
      }
    }
  }

  /** Adding keeps the list well formed: the new reminder's phone is
      canonical, its amount positive and its id fresh. */
  lemma AddPreservesWellFormed(app: App, phone: string, amount: Option<real>, id: string, createdAt: string,
                               write: IoOutcome)
    requires Fresh(app.reminders, id)
    requires WellFormed(app.reminders)
    ensures WellFormed(HandleAdd(app, phone, amount, id, createdAt, write).app.reminders)
  {
    var n := Phone.Normalize(phone);
    if n.Some? && AmountOk(amount) && write.Succeeded? {
      AppendPreservesWellFormed(app.reminders, Reminder(id, n.value, amount.value, createdAt));
    }
  }

  // ---------------------------------------------------------------------------
  // Round trips through storage

  /** Load, add, reload: the reloaded list is the original one with exactly
      the new reminder appended. */
  lemma AddThenReload(stored: Stored, phone: string, amount: Option<real>, id: string, createdAt: string)
    requires Fresh(Load(stored, Succeeded), id)
    requires Phone.Normalize(phone).Some? && AmountOk(amount)
    ensures var after := HandleAdd(Startup(stored, Succeeded), phone, amount, id, createdAt, Succeeded).app;
            Load(after.stored, Succeeded)
            == Load(stored, Succeeded) + [Reminder(id, Phone.Normalize(phone).value, amount.value, createdAt)]
  {
  }

  /** A failed initial read shows an empty list, so the next successful add
      replaces whatever the key held with a one-reminder list. */
  lemma FailedReadThenAddOverwrites(stored: Stored, phone: string, amount: Option<real>, id: string,
                                    createdAt: string)
    requires Phone.Normalize(phone).Some? && AmountOk(amount)
    ensures var after := HandleAdd(Startup(stored, Failed), phone, amount, id, createdAt, Succeeded).app;
            after.stored == Holds([Reminder(id, Phone.Normalize(phone).value, amount.value, createdAt)])
  {
  }
}
