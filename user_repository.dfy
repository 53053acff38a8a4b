/** The in-memory user store of the registration test: a map from login id
    to user and a sequence counter for ids (an `AtomicLong` starting at 0). */
module FakeUserRepository {
  import opened Wrappers
  import opened Longs
  import opened Users

  /** The store's whole state. */
  datatype StoreState = StoreState(store: map<string, User>, sequence: Long)

  /** Every user is stored under its own login id and has an id. */
  ghost predicate WellKeyed(s: StoreState)
  {
    forall k :: k in s.store ==> s.store[k].userId == k && s.store[k].id.Some?
  }

  /** `save`: a user that has an id keeps it and leaves the counter alone; one
      without gets the counter's next value. The result is stored under its
      login id, replacing any earlier entry, and returned. */
  function SaveStep(s: StoreState, user: User): (r: (StoreState, User))
    ensures r.1 == user.(id := r.1.id)
    ensures user.id.Some? ==> r.1.id == user.id && r.0.sequence == s.sequence
    ensures user.id.None? ==> r.1.id == Some(IncrementAndGet(s.sequence)) && r.0.sequence == IncrementAndGet(s.sequence)
    ensures r.0.store == s.store[user.userId := r.1]
  {
    var id := if user.id.Some? then user.id.value else IncrementAndGet(s.sequence);
    var saved := Reconstruct(Some(id), user.userId, user.password, user.userName, user.role);
    (StoreState(s.store[saved.userId := saved], if user.id.Some? then s.sequence else id), saved)
  }

  /** Saving keeps every entry under another login id, adds exactly one entry
      when the login id is new and none when it replaces one, and the saved
      user is then found under its login id. */
  lemma SaveEffect(s: StoreState, user: User)
    requires WellKeyed(s)
    ensures var (s', saved) := SaveStep(s, user);
      && WellKeyed(s')
      && s'.store.Keys == s.store.Keys + {user.userId}
      && |s'.store| == (if user.userId in s.store then |s.store| else |s.store| + 1)
      && (forall k :: k in s.store && k != user.userId ==> s'.store[k] == s.store[k])
      && user.userId in s'.store && s'.store[user.userId] == saved
  {
  }

  /** Saving users one after another, as the store sees repeated `save` calls. */
  function SaveAll(s: StoreState, users: seq<User>): (r: (StoreState, seq<User>))
    decreases |users|
  {
    if users == [] then (s, [])
    else
      var (s1, saved) := SaveStep(s, users[0]);
      var (s2, rest) := SaveAll(s1, users[1..]);
      (s2, [saved] + rest)
  }

  /** Users without an id get the consecutive ids after the counter: from a
      fresh store, 1, 2, 3, and so on, as long as the counter does not wrap. */
  lemma {:induction false} SaveAllSequentialIds(s: StoreState, users: seq<User>)
    requires forall i :: 0 <= i < |users| ==> users[i].id.None?
    requires s.sequence + |users| <= LONG_MAX
    decreases |users|
    ensures var (s', saved) := SaveAll(s, users);
      && |saved| == |users|
      && s'.sequence == s.sequence + |users|
      && forall i :: 0 <= i < |saved| ==> saved[i] == users[i].(id := Some(s.sequence + i + 1))
  {
    if users != [] {
      var (s1, first) := SaveStep(s, users[0]);
      SaveAllSequentialIds(s1, users[1..]);
      var (s2, rest) := SaveAll(s1, users[1..]);
      assert SaveAll(s, users) == (s2, [first] + rest);
      forall i | 0 <= i < |users|
        ensures ([first] + rest)[i] == users[i].(id := Some(s.sequence + i + 1))
      {
        if i > 0 {
          assert rest[i - 1] == users[1..][i - 1].(id := Some(s1.sequence + (i - 1) + 1));
        }
      }
    }
  }

  /** The store object. */
  class Repository {
    var store: map<string, User>
    var sequence: Long

    ghost predicate Valid()
      reads this
    {
      WellKeyed(State())
    }

    function State(): StoreState
      reads this
    {
      StoreState(store, sequence)
    }

    constructor ()
      ensures Valid() && State() == StoreState(map[], 0)
    {
      store := map[];
      sequence := 0;
    }

    /** `existsByUserId`. */
    method ExistsByUserId(userId: string) returns (b: bool)
      ensures b <==> userId in store
    {
      b := userId in store;
    }

    /** `findByUserId`: the user stored under the login id, whose own login id
        is that one, or empty. */
    method FindByUserId(userId: string) returns (r: Option<User>)
      requires Valid()
      ensures r.Some? <==> userId in store
      ensures r.Some? ==> r.value == store[userId] && r.value.userId == userId && r.value.id.Some?
    {
      if userId in store {
        r := Some(store[userId]);
      } else {
        r := None;
      }
    }

    /** `save`. */
    method Save(user: User) returns (saved: User)
      requires Valid()
      modifies this
      ensures Valid()
      ensures (State(), saved) == SaveStep(old(State()), user)
    {
      var id: Long;
      if user.id.Some? {
        id := user.id.value;
      } else {
        sequence := IncrementAndGet(sequence);
        id := sequence;
      }
      saved := Reconstruct(Some(id), user.userId, user.password, user.userName, user.role);
      store := store[saved.userId := saved];
      SaveEffect(old(State()), user);
    }

    /** `count`: the number of distinct login ids stored. */
    method Count() returns (n: nat)
      ensures n == |store.Keys|
    {
      n := |store|;
    }
  }
}
