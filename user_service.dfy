/** Registration: a check-then-insert into the user store. */
module UserService {
  import opened Wrappers
  import opened Longs
  import opened Roles
  import opened Users
  import opened FakePasswordEncoder
  import opened FakeUserRepository
  import opened UserJoinResponse

  /** The registration request. */
  datatype JoinRequest = JoinRequest(userId: string, password: string, userName: string, role: Role)

  const DUPLICATE_USER_ID: string := "DUPLICATE_USER_ID"

  /** `join` on the store's state: a taken login id fails and changes
      nothing; otherwise the user is created with the encoded password and
      saved, and the saved login id and display name are returned. */
  function JoinStep(s: StoreState, req: JoinRequest): (r: (StoreState, UserJoinResponseDTO))
    ensures r.1.success <==> req.userId !in s.store
    ensures req.userId in s.store ==> r == (s, Failure(DUPLICATE_USER_ID))
    ensures req.userId !in s.store ==>
      && r.1 == Success(req.userId, req.userName)
      && r.0.sequence == IncrementAndGet(s.sequence)
      && r.0.store == s.store[req.userId := User(Some(r.0.sequence), req.userId, Encode(req.password), req.userName, req.role)]
  {
    if req.userId in s.store then (s, Failure(DUPLICATE_USER_ID))
    else
      var (s', saved) := SaveStep(s, Create(req.userId, Encode(req.password), req.userName, req.role));
      (s', Success(saved.userId, saved.userName))
  }

  /** A taken login id: failure DUPLICATE_USER_ID, store and counter unchanged. */
  lemma JoinDuplicate(s: StoreState, req: JoinRequest)
    requires req.userId in s.store
    ensures JoinStep(s, req) == (s, Failure(DUPLICATE_USER_ID))
    ensures !JoinStep(s, req).1.success && JoinStep(s, req).1.message == Some(DUPLICATE_USER_ID)
  {
  }

  /** A new login id: success with that login id and display name; exactly
      one entry more; every other user untouched; the new user, found under
      its login id, has the requested name and role, the next sequence id, and
      a password that is the encoding of the raw one, never the raw one. */
  lemma JoinNew(s: StoreState, req: JoinRequest)
    requires WellKeyed(s)
    requires req.userId !in s.store
    ensures var (s', res) := JoinStep(s, req);
      && res.success && res.userId == Some(req.userId) && res.userName == Some(req.userName)
      && WellKeyed(s')
      && s'.store.Keys == s.store.Keys + {req.userId}
      && |s'.store| == |s.store| + 1
      && (forall k :: k in s.store ==> s'.store[k] == s.store[k])
      && req.userId in s'.store
      && s'.store[req.userId].userName == req.userName
      && s'.store[req.userId].role == req.role
      && s'.store[req.userId].id == Some(IncrementAndGet(s.sequence))
      && s'.sequence == IncrementAndGet(s.sequence)
      && Matches(req.password, s'.store[req.userId].password)
      && s'.store[req.userId].password != req.password
  {
    SaveEffect(s, Create(req.userId, Encode(req.password), req.userName, req.role));
  }

  /** Joining requests one after another. */
  function JoinAll(s: StoreState, reqs: seq<JoinRequest>): (r: (StoreState, seq<UserJoinResponseDTO>))
    decreases |reqs|
  {
    if reqs == [] then (s, [])
    else
      var (s1, res) := JoinStep(s, reqs[0]);
      var (s2, rest) := JoinAll(s1, reqs[1..]);
      (s2, [res] + rest)
  }

  /** The login ids a series of requests asks for. */
  function RequestedIds(reqs: seq<JoinRequest>): (ids: set<string>)
    ensures forall r :: r in reqs ==> r.userId in ids
    ensures forall k :: k in ids ==> exists r :: r in reqs && r.userId == k
    decreases |reqs|
  {
    if reqs == [] then {} else {reqs[0].userId} + RequestedIds(reqs[1..])
  }

  /** One registration, taken or new, keeps every existing record and adds
      at most the requested login id. */
  lemma JoinStepKeeps(s: StoreState, req: JoinRequest)
    requires WellKeyed(s)
    ensures WellKeyed(JoinStep(s, req).0)
    ensures JoinStep(s, req).0.store.Keys == s.store.Keys + {req.userId}
    ensures forall k :: k in s.store ==> JoinStep(s, req).0.store[k] == s.store[k]
  {
    if req.userId !in s.store {
      JoinNew(s, req);
    }
  }

  /** Over any series of registrations no stored user is ever replaced: the
      stored login ids grow by exactly the requested ones, every user present
      before keeps its record, and the store stays well keyed. */
  lemma {:induction false} JoinAllNeverReplaces(s: StoreState, reqs: seq<JoinRequest>)
    requires WellKeyed(s)
    decreases |reqs|
    ensures |JoinAll(s, reqs).1| == |reqs|
    ensures WellKeyed(JoinAll(s, reqs).0)
    ensures JoinAll(s, reqs).0.store.Keys == s.store.Keys + RequestedIds(reqs)
    ensures forall k :: k in s.store ==> JoinAll(s, reqs).0.store[k] == s.store[k]
  {
    if reqs != [] {
      var s1 := JoinStep(s, reqs[0]).0;
      JoinStepKeeps(s, reqs[0]);
      JoinAllNeverReplaces(s1, reqs[1..]);
    }
  }

  /** The registration service over the store object; passwords are encoded
      with the test's prefix encoder. */
  class UserService {
    const userRepository: Repository

    constructor (userRepository: Repository)
      ensures this.userRepository == userRepository
    {
      this.userRepository := userRepository;
    }

    /** `join`. */
    method Join(req: JoinRequest) returns (res: UserJoinResponseDTO)
      requires userRepository.Valid()
      modifies userRepository
      ensures userRepository.Valid()
      ensures (userRepository.State(), res) == JoinStep(old(userRepository.State()), req)
    {
      var taken := userRepository.ExistsByUserId(req.userId);
      if taken {
        return Failure(DUPLICATE_USER_ID);
      }
      var toSave := Create(req.userId, Encode(req.password), req.userName, req.role);
      var saved := userRepository.Save(toSave);
      res := Success(saved.userId, saved.userName);
    }
  }
}
