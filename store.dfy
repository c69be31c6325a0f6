/** The Vuex store of the chat client: one state record `{user, messages}`,
    the mutations `setUser` and `addMessage`, the actions `login` and
    `sendMessage`, and the getter `getMessages`.

    The pure part (State, Commit, Dispatch, Run) is the specification; the
    class ChatStore is the store object whose fields the mutations update in
    place, and each of its methods is proved against that specification. */
module Store {
  import opened Js

  /** The store's state tree. */
  datatype State = State(user: Value, messages: seq<Value>)

  /** The state the store is created with. */
  const Initial: State := State(Null, [])

  /** The store's mutations, run by `commit`. */
  datatype Mutation = SetUser(user: Value) | AddMessage(message: Value)

  /** The store's actions, run by `dispatch`. */
  datatype Action = Login(user: Value) | SendMessage(text: Value)

  /** One call made on the store from outside. */
  datatype Op = Commit(mutation: Mutation) | Dispatch(action: Action)

  /** The state after an operation and how the operation ended. */
  datatype Step = Step(state: State, outcome: Outcome)

  /** The record `sendMessage` builds: `{id, user, text}`. */
  function SentMessage(id: int, user: Value, text: Value): Value
  {
    Obj(map["id" := Num(id), "user" := user, "text" := text])
  }

  /** `commit`: mutations are total and touch only the field they name.
      `addMessage` keeps every earlier entry where it was and puts the new
      one last. */
  function ApplyMutation(s: State, m: Mutation): (r: State)
    ensures m.SetUser? ==> r.user == m.user && r.messages == s.messages
    ensures m.AddMessage? ==>
      r.user == s.user &&
      |r.messages| == |s.messages| + 1 &&
      r.messages[..|s.messages|] == s.messages &&
      r.messages[|s.messages|] == m.message
  {
    match m
    case SetUser(u) => s.(user := u)
    case AddMessage(x) => s.(messages := s.messages + [x])
  }

  /** `dispatch`: `login` commits `setUser`; `sendMessage` reads the list
      length and `state.user.name` and commits `addMessage` with the new
      record. Reading `name` of a null or undefined user throws a TypeError
      before anything is committed. */
  function ApplyAction(s: State, a: Action): (r: Step)
    ensures a.Login? ==> r == Step(ApplyMutation(s, SetUser(a.user)), Done)
    ensures a.SendMessage? ==> (r.outcome == Done <==> !s.user.IsNullish())
    ensures a.SendMessage? && s.user.IsNullish() ==>
      r == Step(s, Threw(TypeError))
    ensures a.SendMessage? && !s.user.IsNullish() ==>
      r.state.user == s.user &&
      |r.state.messages| == |s.messages| + 1 &&
      r.state.messages[..|s.messages|] == s.messages &&
      r.state.messages[|s.messages|] ==
        SentMessage(|r.state.messages|, Member(s.user, "name").value, a.text)
  {
    match a
    case Login(u) => Step(ApplyMutation(s, SetUser(u)), Done)
    case SendMessage(text) =>
      var id := |s.messages| + 1;
      match Member(s.user, "name")
      case None => Step(s, Threw(TypeError))
      case Some(name) => Step(ApplyMutation(s, AddMessage(SentMessage(id, name, text))), Done)
  }

  function Apply(s: State, op: Op): Step
  {
    match op
    case Commit(m) => Step(ApplyMutation(s, m), Done)
    case Dispatch(a) => ApplyAction(s, a)
  }

  /** The state after a sequence of operations; an operation that throws
      leaves the state as it was and the caller goes on with the next one. */
  function Run(s: State, ops: seq<Op>): State
    decreases |ops|
  {
    if ops == [] then s else Apply(Run(s, ops[..|ops| - 1]), ops[|ops| - 1]).state
  }

  /** The ids that the successful `sendMessage` dispatches in `ops` gave
      their messages, in issue order. */
  function IssuedIds(s: State, ops: seq<Op>): seq<int>
    decreases |ops|
  {
    if ops == [] then []
    else
      var before := Run(s, ops[..|ops| - 1]);
      var op := ops[|ops| - 1];
      IssuedIds(s, ops[..|ops| - 1]) +
        (if op.Dispatch? && op.action.SendMessage? && !before.user.IsNullish()
         then [|before.messages| + 1] else [])
  }

  /** Every operation keeps the message list as a prefix of the new one. */
  lemma ApplyExtends(s: State, op: Op)
    ensures s.messages <= Apply(s, op).state.messages
    ensures |Apply(s, op).state.messages| <= |s.messages| + 1
  {
  }

  /** No sequence of operations removes or reorders a message: the list only
      grows at its end, so its length never decreases. */
  lemma {:induction false} RunExtends(s: State, ops: seq<Op>)
    ensures s.messages <= Run(s, ops).messages
    ensures |s.messages| <= |Run(s, ops).messages|
    decreases |ops|
  {
    if ops != [] {
      var init := ops[..|ops| - 1];
      RunExtends(s, init);
      ApplyExtends(Run(s, init), ops[|ops| - 1]);
    }
  }

  /** The ids issued by successive `sendMessage` calls are strictly
      increasing (hence distinct), each exceeds the length the list had at
      the start, and none exceeds the final length. */
  lemma {:induction false} IssuedIdsIncrease(s: State, ops: seq<Op>)
    ensures forall i, j :: 0 <= i < j < |IssuedIds(s, ops)| ==>
      IssuedIds(s, ops)[i] < IssuedIds(s, ops)[j]
    ensures forall i :: 0 <= i < |IssuedIds(s, ops)| ==>
      |s.messages| < IssuedIds(s, ops)[i] <= |Run(s, ops).messages|
    decreases |ops|
  {
    if ops != [] {
      var init := ops[..|ops| - 1];
      IssuedIdsIncrease(s, init);
      RunExtends(s, init);
    }
  }

  /** A message issued by `sendMessage` with id k stays at position k - 1
      and keeps that id, whatever is committed or dispatched afterwards. */
  lemma {:induction false} IssuedIdIsPosition(s: State, ops: seq<Op>, k: int)
    requires k in IssuedIds(s, ops)
    ensures 0 < k <= |Run(s, ops).messages|
    ensures Member(Run(s, ops).messages[k - 1], "id") == Some(Num(k))
    decreases |ops|
  {
    var init := ops[..|ops| - 1];
    var before := Run(s, init);
    var op := ops[|ops| - 1];
    ApplyExtends(before, op);
    if k in IssuedIds(s, init) {
      IssuedIdIsPosition(s, init, k);
      assert Run(s, ops).messages[k - 1] == before.messages[k - 1];
    } else {
      assert k == |before.messages| + 1;
    }
  }

  /** On an empty message list, whoever the user is, two `addMessage`
      commits give exactly the two messages, in commit order, and leave the
      user as it was. */
  lemma AddTwiceOnEmpty(s: State, m1: Value, m2: Value)
    requires s.messages == []
    ensures Run(s, [Commit(AddMessage(m1)), Commit(AddMessage(m2))]).messages == [m1, m2]
    ensures Run(s, [Commit(AddMessage(m1)), Commit(AddMessage(m2))]).user == s.user
  {
    var one := [Commit(AddMessage(m1))];
    var ops := one + [Commit(AddMessage(m2))];
    assert one[..0] == [];
    assert Run(s, one).messages == [m1];
    assert ops[..1] == one;
  }

  /** The store object. Its two fields are the state tree; the mutations
      assign them in place. */
  class ChatStore {
    var user: Value
    var messages: seq<Value>

    /** The store's state as a value. */
    function Snapshot(): State
      reads this
    {
      State(user, messages)
    }

    /** `createStore({state: {user: null, messages: []}, …})`. */
    constructor ()
      ensures Snapshot() == Initial
      ensures user == Null && messages == []
    {
      user := Null;
      messages := [];
    }

    /** Mutation `setUser`: `state.user = user`. */
    method SetUser(u: Value)
      modifies this
      ensures Snapshot() == ApplyMutation(old(Snapshot()), Mutation.SetUser(u))
      ensures user == u && messages == old(messages)
    {
      user := u;
    }

    /** Mutation `addMessage`: `state.messages.push(message)`. */
    method AddMessage(m: Value)
      modifies this
      ensures Snapshot() == ApplyMutation(old(Snapshot()), Mutation.AddMessage(m))
      ensures user == old(user) && messages == old(messages) + [m]
    {
      messages := messages + [m];
    }

    /** Action `login`: commits `setUser`. */
    method Login(u: Value)
      modifies this
      ensures Step(Snapshot(), Done) == ApplyAction(old(Snapshot()), Action.Login(u))
      ensures user == u && messages == old(messages)
    {
      SetUser(u);
    }

    /** Action `sendMessage`: builds `{id: messages.length + 1, user:
        user.name, text}` and commits `addMessage`; throws a TypeError and
        changes nothing when there is no user. */
    method SendMessage(text: Value) returns (outcome: Outcome)
      modifies this
      ensures Step(Snapshot(), outcome) == ApplyAction(old(Snapshot()), Action.SendMessage(text))
      ensures user == old(user)
      ensures outcome == Done ==>
        |messages| == |old(messages)| + 1 && messages[..|old(messages)|] == old(messages) &&
        Member(messages[|messages| - 1], "id") == Some(Num(|messages|))
    {
      var id := |messages| + 1;
      var name := Member(user, "name");
      if name.None? {
        return Threw(TypeError);
      }
      AddMessage(SentMessage(id, name.value, text));
      outcome := Done;
    }

    /** Getter `getMessages`: the state's message list itself. */
    function GetMessages(): (r: seq<Value>)
      reads this
      ensures r == Snapshot().messages
    {
      messages
    }
  }
}
