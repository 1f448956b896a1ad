/**
 * The command registry of `src/manager/commandManager.ts`: a map from
 * command id to `CommandInfo`, overwritten on registration, beside the
 * extension's append-only list of host registrations.
 *
 * Handlers are opaque identifiers; running one is recorded, in order, in
 * `invoked`.
 */
module Commands {
  import opened Wrappers

  /** An opaque stand-in for a command's handler function. */
  type HandlerId = nat

  /** `CommandInfo`. */
  datatype CommandInfo = CommandInfo(id: string, title: string, category: string, handler: HandlerId)

  /** The disposable the host returns for a registration, as pushed onto `context.subscriptions`. */
  datatype Disposable = Registration(id: string)

  /** The error `executeCommand` throws for an unknown id. */
  datatype CommandError = NotFound(id: string)

  /** The message of that error. */
  function ErrorMessage(e: CommandError): string {
    "命令未找到: " + e.id
  }

  /**
   * The error messages the host-side wrapper of a registered handler shows
   * when the host runs it: one when the handler throws, none otherwise.
   * The wrapper calls the host directly, so the store's notification switch
   * does not apply.
   */
  function WrapperMessages(handlerError: Option<string>): (messages: seq<string>)
    ensures |messages| <= 1
    ensures messages == [] <==> handlerError.None?
    ensures handlerError.Some? ==> messages[0] == "命令执行失败: " + handlerError.value
  {
    match handlerError
    case None => []
    case Some(message) => ["命令执行失败: " + message]
  }

  /** No id occurs twice. */
  ghost predicate Distinct(s: seq<string>) {
    forall i, j :: 0 <= i < j < |s| ==> s[i] != s[j]
  }

  /** A list without repeats has as many elements as its set. */
  lemma {:induction false} DistinctCard(s: seq<string>)
    requires Distinct(s)
    ensures |set x | x in s| == |s|
  {
    if s != [] {
      var rest := s[1..];
      assert Distinct(rest) by {
        forall i, j | 0 <= i < j < |rest| ensures rest[i] != rest[j] {
          assert rest[i] == s[i + 1] && rest[j] == s[j + 1];
        }
      }
      DistinctCard(rest);
      assert s[0] !in rest by {
        forall j | 0 <= j < |rest| ensures rest[j] != s[0] {
          assert rest[j] == s[j + 1];
        }
      }
      assert (set x | x in s) == {s[0]} + (set x | x in rest) by {
        assert s == [s[0]] + rest;
      }
    }
  }

  /** The iteration order of a JavaScript `Map` after `set(id, …)`: a new id goes last, a known one stays put. */
  function Put(order: seq<string>, id: string): (r: seq<string>)
    ensures Distinct(order) ==> Distinct(r)
    ensures forall x :: x in r <==> x in order || x == id
    ensures id in order ==> r == order
    ensures id !in order ==> r == order + [id]
  {
    if id in order then order else order + [id]
  }

  /** The iteration order after `delete(id)`. */
  function Without(order: seq<string>, id: string): (r: seq<string>)
    ensures forall x :: x in r <==> x in order && x != id
    ensures id !in order ==> r == order
  {
    if order == [] then []
    else if order[0] == id then Without(order[1..], id)
    else [order[0]] + Without(order[1..], id)
  }

  /** Helper: the tail of a list without repeats has none, and does not hold the head. */
  lemma DistinctTail(s: seq<string>)
    requires Distinct(s) && s != []
    ensures Distinct(s[1..]) && s[0] !in s[1..]
  {
  }

  /** Helper: a new head keeps a list without repeats free of them. */
  lemma DistinctCons(x: string, s: seq<string>)
    requires Distinct(s) && x !in s
    ensures Distinct([x] + s)
  {
  }

  /** Deleting an id keeps the iteration order free of repeats. */
  lemma {:induction false} WithoutDistinct(order: seq<string>, id: string)
    requires Distinct(order)
    ensures Distinct(Without(order, id))
  {
    if order != [] {
      DistinctTail(order);
      WithoutDistinct(order[1..], id);
      if order[0] != id {
        DistinctCons(order[0], Without(order[1..], id));
      }
    }
  }

  /** Deleting from a concatenation deletes from each part, so the remaining ids keep their order. */
  lemma {:induction false} WithoutAppend(a: seq<string>, b: seq<string>, id: string)
    ensures Without(a + b, id) == Without(a, id) + Without(b, id)
  {
    if a == [] {
      assert a + b == b;
    } else {
      assert (a + b)[0] == a[0];
      assert (a + b)[1..] == a[1..] + b;
      WithoutAppend(a[1..], b, id);
    }
  }

  /** Deleting from a single id drops it when it is the one deleted and keeps it otherwise. */
  lemma WithoutSingle(x: string, id: string)
    ensures Without([x], id) == if x == id then [] else [x]
  {
    assert [x][1..] == [];
  }

  /** The ids the commands of `cs` carry. */
  function Ids(cs: seq<CommandInfo>): set<string> {
    set c | c in cs :: c.id
  }

  /** Helper: the ids of a list are those of all but its last command, plus the last one's. */
  lemma IdsLast(cs: seq<CommandInfo>)
    requires cs != []
    ensures Ids(cs) == Ids(cs[..|cs| - 1]) + {cs[|cs| - 1].id}
  {
    assert cs == cs[..|cs| - 1] + [cs[|cs| - 1]];
  }

  /** The map after registering each command of `cs` in turn. */
  function Registered(m: map<string, CommandInfo>, cs: seq<CommandInfo>): map<string, CommandInfo> {
    if cs == [] then m
    else Registered(m, cs[..|cs| - 1])[cs[|cs| - 1].id := cs[|cs| - 1]]
  }

  /** Registering a list binds the earlier ids plus every listed one, and no other. */
  lemma {:induction false} RegisteredIds(m: map<string, CommandInfo>, cs: seq<CommandInfo>)
    ensures Registered(m, cs).Keys == m.Keys + Ids(cs)
  {
    if cs != [] {
      IdsLast(cs);
      RegisteredIds(m, cs[..|cs| - 1]);
    }
  }

  /** The iteration order after registering each command of `cs` in turn. */
  function RegisteredOrder(order: seq<string>, cs: seq<CommandInfo>): seq<string> {
    if cs == [] then order
    else Put(RegisteredOrder(order, cs[..|cs| - 1]), cs[|cs| - 1].id)
  }

  /** The order after registering a list stays free of repeats and names the earlier ids plus every listed one. */
  lemma {:induction false} RegisteredOrderIds(order: seq<string>, cs: seq<CommandInfo>)
    ensures Distinct(order) ==> Distinct(RegisteredOrder(order, cs))
    ensures forall x :: x in RegisteredOrder(order, cs) <==> x in order || x in Ids(cs)
  {
    if cs != [] {
      IdsLast(cs);
      RegisteredOrderIds(order, cs[..|cs| - 1]);
    }
  }

  /** Helper: registering one more command of the list extends each of the three folds by that command. */
  lemma RegisterStep(m: map<string, CommandInfo>, order: seq<string>, cs: seq<CommandInfo>, i: nat)
    requires i < |cs|
    ensures Registered(m, cs[..i + 1]) == Registered(m, cs[..i])[cs[i].id := cs[i]]
    ensures RegisteredOrder(order, cs[..i + 1]) == Put(RegisteredOrder(order, cs[..i]), cs[i].id)
    ensures Registrations(cs[..i + 1]) == Registrations(cs[..i]) + [Registration(cs[i].id)]
  {
    assert cs[..i + 1][..i] == cs[..i];
  }

  /** The host registrations pushed for each command of `cs`, in order. */
  function Registrations(cs: seq<CommandInfo>): (r: seq<Disposable>)
    ensures |r| == |cs|
    ensures forall i :: 0 <= i < |cs| ==> r[i] == Registration(cs[i].id)
  {
    if cs == [] then [] else Registrations(cs[..|cs| - 1]) + [Registration(cs[|cs| - 1].id)]
  }

  /**
   * Registering a list binds an id to its last occurrence in the list: when
   * `cs[i]` is the last command with that id, the id ends up bound to `cs[i]`.
   */
  lemma {:induction false} LastRegistrationWins(m: map<string, CommandInfo>, cs: seq<CommandInfo>, i: nat)
    requires i < |cs|
    requires forall j :: i < j < |cs| ==> cs[j].id != cs[i].id
    ensures cs[i].id in Registered(m, cs) && Registered(m, cs)[cs[i].id] == cs[i]
  {
    var n := |cs| - 1;
    if i < n {
      var init := cs[..n];
      assert init[i] == cs[i];
      assert forall j :: i < j < |init| ==> init[j].id != init[i].id by {
        forall j | i < j < |init| ensures init[j].id != init[i].id { assert init[j] == cs[j]; }
      }
      LastRegistrationWins(m, init, i);
    }
  }

  /** An id that no command of the list carries keeps the binding it had, or stays unbound. */
  lemma {:induction false} UnlistedIdUnchanged(m: map<string, CommandInfo>, cs: seq<CommandInfo>, id: string)
    requires forall j :: 0 <= j < |cs| ==> cs[j].id != id
    ensures id in Registered(m, cs) <==> id in m
    ensures id in m ==> Registered(m, cs)[id] == m[id]
  {
    if cs != [] {
      var init := cs[..|cs| - 1];
      assert forall j :: 0 <= j < |init| ==> init[j].id != id by {
        forall j | 0 <= j < |init| ensures init[j].id != id { assert init[j] == cs[j]; }
      }
      UnlistedIdUnchanged(m, init, id);
    }
  }

  /** The values stored under each id of `order`, in that order. */
  function Values(order: seq<string>, m: map<string, CommandInfo>): (r: seq<CommandInfo>)
    requires forall id :: id in order ==> id in m
    ensures |r| == |order|
    ensures forall i :: 0 <= i < |order| ==> r[i] == m[order[i]]
  {
    if order == [] then [] else [m[order[0]]] + Values(order[1..], m)
  }

  /** Listing a map's values in an order that names each of its ids once yields one value per id. */
  lemma ValuesCount(order: seq<string>, m: map<string, CommandInfo>)
    requires Distinct(order)
    requires forall id :: id in m <==> id in order
    ensures |Values(order, m)| == |m|
  {
    DistinctCard(order);
    assert (set x | x in order) == m.Keys;
  }

  /** Every stored value is listed, and only stored values are. */
  lemma ValuesCover(order: seq<string>, m: map<string, CommandInfo>)
    requires forall id :: id in m <==> id in order
    ensures forall id :: id in m ==> m[id] in Values(order, m)
    ensures forall c :: c in Values(order, m) ==> c in m.Values
  {
    var r := Values(order, m);
    forall id | id in m ensures m[id] in r {
      var i :| 0 <= i < |order| && order[i] == id;
      assert r[i] == m[id];
    }
  }

  /** No two listed values carry the same id. */
  lemma ValuesDistinctIds(order: seq<string>, m: map<string, CommandInfo>)
    requires Distinct(order)
    requires forall id :: id in m <==> id in order
    requires forall id :: id in m ==> m[id].id == id
    ensures forall i, j :: 0 <= i < j < |Values(order, m)| ==> Values(order, m)[i].id != Values(order, m)[j].id
  {
    var r := Values(order, m);
    forall i, j | 0 <= i < j < |r| ensures r[i].id != r[j].id {
      assert r[i].id == order[i] && r[j].id == order[j];
    }
  }

  /** `CommandManager`. */
  class CommandManager {
    /** `commands`. */
    var commands: map<string, CommandInfo>
    /** The order in which `commands` iterates: the order its ids were first set. */
    var order: seq<string>
    /** `context.subscriptions`. */
    var subscriptions: seq<Disposable>
    /** The handlers `executeCommand` has run, in order. */
    var invoked: seq<HandlerId>

    /** Every stored command sits under its own id, and `order` lists each stored id once. */
    ghost predicate Valid()
      reads this
    {
      && (forall id :: id in commands <==> id in order)
      && Distinct(order)
      && (forall id :: id in commands ==> commands[id].id == id)
    }

    /** The constructor starts with no commands, beside the context's existing subscriptions. */
    constructor (subscriptions: seq<Disposable>)
      ensures Valid()
      ensures commands == map[] && order == []
      ensures this.subscriptions == subscriptions && invoked == []
    {
      commands := map[];
      order := [];
      this.subscriptions := subscriptions;
      invoked := [];
    }

    /** `hasCommand(id)`. */
    predicate HasCommand(id: string)
      reads this
      ensures Valid() ==> (HasCommand(id) <==> id in order)
    {
      id in commands
    }

    /** `getCommand(id)`: the stored command, `None` for an unknown id. */
    function GetCommand(id: string): (r: Option<CommandInfo>)
      reads this
      requires Valid()
      ensures r.Some? <==> HasCommand(id)
      ensures r.Some? ==> r.value.id == id
      ensures r.Some? ==> r.value == commands[id]
    {
      if id in commands then Some(commands[id]) else None
    }

    /** `getCommands()`: every stored command exactly once, in the map's iteration order. */
    function GetCommands(): (r: seq<CommandInfo>)
      reads this
      requires Valid()
      ensures |r| == |commands|
      ensures forall id :: id in commands ==> commands[id] in r
      ensures forall c :: c in r ==> c in commands.Values
      ensures forall i, j :: 0 <= i < j < |r| ==> r[i].id != r[j].id
    {
      ValuesCount(order, commands);
      ValuesCover(order, commands);
      ValuesDistinctIds(order, commands);
      Values(order, commands)
    }

    /**
     * `registerCommand(command)`: one host registration is pushed, and the
     * command is stored under its id, replacing any earlier one.
     */
    method RegisterCommand(c: CommandInfo)
      requires Valid()
      modifies this
      ensures Valid()
      ensures HasCommand(c.id) && GetCommand(c.id) == Some(c)
      ensures commands == old(commands)[c.id := c]
      ensures order == Put(old(order), c.id)
      ensures subscriptions == old(subscriptions) + [Registration(c.id)]
      ensures invoked == old(invoked)
    {
      subscriptions := subscriptions + [Registration(c.id)];
      commands := commands[c.id := c];
      order := Put(order, c.id);
    }

    /** `registerCommands(commands)`: register each command in list order. */
    method RegisterCommands(cs: seq<CommandInfo>)
      requires Valid()
      modifies this
      ensures Valid()
      ensures commands == Registered(old(commands), cs)
      ensures order == RegisteredOrder(old(order), cs)
      ensures subscriptions == old(subscriptions) + Registrations(cs)
      ensures invoked == old(invoked)
    {
      ghost var commands0, order0, subscriptions0 := commands, order, subscriptions;
      var i := 0;
      while i < |cs|
        invariant 0 <= i <= |cs|
        invariant Valid()
        invariant commands == Registered(commands0, cs[..i])
        invariant order == RegisteredOrder(order0, cs[..i])
        invariant subscriptions == subscriptions0 + Registrations(cs[..i])
        invariant invoked == old(invoked)
      {
        RegisterStep(commands0, order0, cs, i);
        RegisterCommand(cs[i]);
        i := i + 1;
      }
      assert cs[..|cs|] == cs;
    }

    /**
     * `executeCommand(id)`: run the handler stored under `id`, or fail with
     * "not found" and run nothing.
     */
    method ExecuteCommand(id: string) returns (err: Option<CommandError>)
      modifies this
      ensures commands == old(commands) && order == old(order) && subscriptions == old(subscriptions)
      ensures id in commands ==> err == None && invoked == old(invoked) + [commands[id].handler]
      ensures id !in commands ==> err == Some(NotFound(id)) && invoked == old(invoked)
      ensures err.Some? ==> ErrorMessage(err.value) == "命令未找到: " + id
    {
      if id in commands {
        invoked := invoked + [commands[id].handler];
        err := None;
      } else {
        err := Some(NotFound(id));
      }
    }

    /**
     * `unregisterCommand(id)`: drop the command and say whether there was
     * one; the host registration stays in the subscriptions.
     */
    method UnregisterCommand(id: string) returns (removed: bool)
      requires Valid()
      modifies this
      ensures Valid()
      ensures removed <==> id in old(commands)
      ensures commands == old(commands) - {id}
      ensures !HasCommand(id)
      ensures forall other :: other != id ==> GetCommand(other) == old(GetCommand(other))
      ensures order == Without(old(order), id)
      ensures subscriptions == old(subscriptions) && invoked == old(invoked)
    {
      if id in commands {
        WithoutDistinct(order, id);
        commands := commands - {id};
        order := Without(order, id);
        removed := true;
      } else {
        removed := false;
      }
    }

    /** `dispose()`: forget every command; the host registrations stay in the subscriptions. */
    method Dispose()
      requires Valid()
      modifies this
      ensures Valid()
      ensures commands == map[] && order == []
      ensures subscriptions == old(subscriptions) && invoked == old(invoked)
    {
      commands := map[];
      order := [];
    }
  }
}
