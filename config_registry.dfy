/**
 * The validated configuration registry and the message bus's subscriber
 * bookkeeping.
 *
 * Callbacks (validators, change listeners, message handlers) are JavaScript
 * functions compared by identity; here a validator is a function value, and a
 * listener or handler is an identity number whose behaviour on a call is a
 * parameter. What a listener was called with is kept in a log.
 */
module Config {
  import opened Common

  /** A validator returns a truthy error message, or `None` for any falsy result. */
  type Validator = Json -> Option<string>

  /** A change listener or a message handler, by identity. */
  type Callback = nat

  /** A registered schema: its default value and its validators, in order. */
  datatype Schema = Schema(default: Json, validators: seq<Validator>)

  /** One registered key: its schema and current value. */
  datatype Entry = Entry(schema: Schema, value: Json)

  /** One call of a change listener, with `(newValue, oldValue)` and how it ended. */
  datatype Note = Note(listener: Callback, key: string, newValue: Json, oldValue: Json, outcome: Outcome)

  /** The first error the validators report, in order; `None` when every one passes. */
  function FirstError(validators: seq<Validator>, value: Json): (r: Option<string>)
    ensures r.None? <==> forall i :: 0 <= i < |validators| ==> validators[i](value).None?
    ensures r.Some? ==> exists i ::
      && 0 <= i < |validators| && validators[i](value) == r
      && forall j :: 0 <= j < i ==> validators[j](value).None?
  {
    if validators == [] then None
    else if validators[0](value).Some? then validators[0](value)
    else
      var r := FirstError(validators[1..], value);
      assert forall i :: 1 <= i < |validators| ==> validators[i] == validators[1..][i - 1];
      if r.Some? then
        var i :| 0 <= i < |validators[1..]| && validators[1..][i](value) == r
          && forall j :: 0 <= j < i ==> validators[1..][j](value).None?;
        assert validators[i + 1](value) == r;
        r
      else r
  }

  /** The error `set` throws for a key that was never registered. */
  function NotRegistered(key: string): string {
    "Configuration key '" + key + "' not registered"
  }

  /** The error `set` throws when a validator objects. */
  function ValidationFailed(key: string, error: string): string {
    "Validation failed for '" + key + "': " + error
  }

  /** The calls `notifyListeners` makes: every listener, in order, whatever earlier ones did. */
  function Notes(listeners: seq<Callback>, key: string, newValue: Json, oldValue: Json,
                 behave: (Callback, Json, Json) -> Outcome): (r: seq<Note>)
    ensures |r| == |listeners|
    ensures forall i :: 0 <= i < |r| ==>
      r[i] == Note(listeners[i], key, newValue, oldValue, behave(listeners[i], newValue, oldValue))
  {
    seq(|listeners|, i requires 0 <= i < |listeners| =>
      Note(listeners[i], key, newValue, oldValue, behave(listeners[i], newValue, oldValue)))
  }

  /** Which listeners heard what does not depend on which of them threw. */
  lemma NotesIgnoreFailures(listeners: seq<Callback>, key: string, newValue: Json, oldValue: Json,
                            b1: (Callback, Json, Json) -> Outcome, b2: (Callback, Json, Json) -> Outcome)
    ensures var n1 := Notes(listeners, key, newValue, oldValue, b1);
      var n2 := Notes(listeners, key, newValue, oldValue, b2);
      forall i :: 0 <= i < |listeners| ==>
        n1[i].listener == n2[i].listener && n1[i].newValue == n2[i].newValue && n1[i].oldValue == n2[i].oldValue
  {
  }

  /** A list of callbacks with `cb` pushed. */
  function Pushed(m: map<string, seq<Callback>>, key: string, cb: Callback): (r: map<string, seq<Callback>>)
    ensures key in r && r[key] == (if key in m then m[key] else []) + [cb]
    ensures forall k :: k != key ==> (k in r <==> k in m) && (k in m ==> r[k] == m[k])
  {
    m[key := (if key in m then m[key] else []) + [cb]]
  }

  class ConfigRegistry {
    var configs: map<string, Entry>
    /** The registration order of `configs` (a Map iterates in insertion order). */
    var order: seq<string>
    var listeners: map<string, seq<Callback>>
    /** Every listener call so far. */
    var log: seq<Note>

    ghost predicate Valid()
      reads this
    {
      Distinct(order) && forall k :: k in order <==> k in configs
    }

    constructor()
      ensures Valid() && configs == map[] && order == [] && listeners == map[] && log == []
    {
      configs := map[];
      order := [];
      listeners := map[];
      log := [];
    }

    /** `register`: (re)sets the key's schema and its value to the default. */
    method Register(key: string, schema: Schema)
      requires Valid()
      modifies this
      ensures Valid()
      ensures configs == old(configs)[key := Entry(schema, schema.default)]
      ensures order == if key in old(configs) then old(order) else old(order) + [key]
      ensures listeners == old(listeners) && log == old(log)
    {
      if key !in configs {
        order := order + [key];
      }
      configs := configs[key := Entry(schema, schema.default)];
    }

    /** `get`: the current value, `None` (undefined) for an unregistered key. */
    function Get(key: string): (r: Option<Json>)
      reads this
      ensures r.Some? <==> key in configs
      ensures r.Some? ==> r.value == configs[key].value
    {
      if key in configs then Some(configs[key].value) else None
    }

    /** `onChange`: appends a listener for the key. */
    method OnChange(key: string, cb: Callback)
      modifies this
      ensures listeners == Pushed(old(listeners), key, cb)
      ensures configs == old(configs) && order == old(order) && log == old(log)
    {
      listeners := Pushed(listeners, key, cb);
    }

    /** `notifyListeners`: calls each listener of the key in order; a throw is caught. */
    method NotifyListeners(key: string, newValue: Json, oldValue: Json, behave: (Callback, Json, Json) -> Outcome)
      modifies this
      ensures log == old(log) + Notes(if key in listeners then listeners[key] else [], key, newValue, oldValue, behave)
      ensures configs == old(configs) && order == old(order) && listeners == old(listeners)
    {
      var cbs := if key in listeners then listeners[key] else [];
      ghost var start := log;
      var i := 0;
      while i < |cbs|
        invariant 0 <= i <= |cbs|
        invariant configs == old(configs) && order == old(order) && listeners == old(listeners)
        invariant log == start + Notes(cbs[..i], key, newValue, oldValue, behave)
      {
        var cb := cbs[i];
        var outcome := behave(cb, newValue, oldValue);
        log := log + [Note(cb, key, newValue, oldValue, outcome)];
        assert cbs[..i + 1] == cbs[..i] + [cb];
        i := i + 1;
      }
      assert cbs[..i] == cbs;
    }

    /** The validators of a key, run in order until one reports an error. */
    method Validate(validators: seq<Validator>, value: Json) returns (err: Option<string>)
      ensures err == FirstError(validators, value)
    {
      var i := 0;
      while i < |validators|
        invariant 0 <= i <= |validators|
        invariant forall j :: 0 <= j < i ==> validators[j](value).None?
        invariant FirstError(validators, value) == FirstError(validators[i..], value)
      {
        var e := validators[i](value);
        if e.Some? {
          return e;
        }
        assert validators[i..][1..] == validators[i + 1..];
        i := i + 1;
      }
      return None;
    }

    /**
     * `set`: an unregistered key or the first validator error throws and changes
     * nothing; otherwise the value is replaced and every listener of the key is
     * told `(new, old)`, a throwing listener neither stopping the others nor
     * undoing the update.
     */
    method Set(key: string, value: Json, behave: (Callback, Json, Json) -> Outcome) returns (r: Outcome)
      modifies this
      ensures order == old(order) && listeners == old(listeners)
      ensures key !in old(configs) ==> r == Threw(NotRegistered(key)) && configs == old(configs) && log == old(log)
      ensures key in old(configs) ==>
        var err := FirstError(old(configs)[key].schema.validators, value);
        && (err.Some? ==> r == Threw(ValidationFailed(key, err.value)) && configs == old(configs) && log == old(log))
        && (err.None? ==>
              && r == Completed
              && configs == old(configs)[key := old(configs)[key].(value := value)]
              && log == old(log) + Notes(if key in listeners then listeners[key] else [], key, value,
                                         old(configs)[key].value, behave))
    {
      if key !in configs {
        return Threw(NotRegistered(key));
      }
      var err := Validate(configs[key].schema.validators, value);
      if err.Some? {
        return Threw(ValidationFailed(key, err.value));
      }
      var oldValue := configs[key].value;
      configs := configs[key := configs[key].(value := value)];
      NotifyListeners(key, value, oldValue, behave);
      r := Completed;
    }

    /** `getAll`: every registered key mapped to its current value. */
    method GetAll() returns (result: map<string, Json>)
      requires Valid()
      ensures result.Keys == configs.Keys
      ensures forall k :: k in result ==> Get(k) == Some(result[k])
    {
      result := map[];
      var i := 0;
      while i < |order|
        invariant 0 <= i <= |order|
        invariant forall k :: k in result <==> k in order[..i]
        invariant forall k :: k in result ==> k in configs && result[k] == configs[k].value
      {
        result := result[order[i] := configs[order[i]].value];
        i := i + 1;
      }
      assert order[..i] == order;
    }

    /**
     * `resetToDefaults`: sets each key back to its default, in registration order,
     * through `set`; a default its own validators reject throws and leaves that key
     * and every later one as it was.
     */
    method ResetToDefaults(behave: (Callback, Json, Json) -> Outcome) returns (r: Outcome)
      requires Valid()
      modifies this
      ensures Valid() && order == old(order) && listeners == old(listeners)
      ensures configs.Keys == old(configs).Keys
      ensures forall k :: k in configs ==> configs[k].schema == old(configs)[k].schema
      ensures r.Completed? <==> forall k :: k in configs ==> Acceptable(configs[k].schema)
      ensures r.Completed? ==> forall k :: k in configs ==> configs[k].value == configs[k].schema.default
      ensures r.Threw? ==> exists j :: 0 <= j < |order| && StoppedAt(old(configs), configs, order, j)
    {
      ghost var before := configs;
      var i := 0;
      while i < |order|
        invariant 0 <= i <= |order|
        invariant Valid() && order == old(order) && listeners == old(listeners)
        invariant configs.Keys == before.Keys
        invariant forall k :: k in configs ==> configs[k].schema == before[k].schema
        invariant forall j :: 0 <= j < i ==> Acceptable(configs[order[j]].schema)
        invariant forall j :: 0 <= j < i ==> configs[order[j]].value == configs[order[j]].schema.default
        invariant forall j :: i <= j < |order| ==> configs[order[j]] == before[order[j]]
      {
        var key := order[i];
        var schema := configs[key].schema;
        ghost var pre := configs;
        r := Set(key, schema.default, behave);
        if r.Threw? {
          assert StoppedAt(before, configs, order, i);
          return;
        }
        ResetStep(before, pre, configs, order, i);
        i := i + 1;
      }
      r := Completed;
    }
  }

  /** One step of `resetToDefaults`: the `i`-th key takes its accepted default, nothing else moves. */
  lemma ResetStep(before: map<string, Entry>, pre: map<string, Entry>, post: map<string, Entry>,
                  order: seq<string>, i: int)
    requires 0 <= i < |order| && Distinct(order)
    requires forall k :: k in order <==> k in pre
    requires pre.Keys == before.Keys && forall k :: k in pre ==> pre[k].schema == before[k].schema
    requires forall j :: 0 <= j < i ==> Acceptable(pre[order[j]].schema)
    requires forall j :: 0 <= j < i ==> pre[order[j]].value == pre[order[j]].schema.default
    requires forall j :: i <= j < |order| ==> pre[order[j]] == before[order[j]]
    requires Acceptable(pre[order[i]].schema)
    requires post == pre[order[i] := pre[order[i]].(value := pre[order[i]].schema.default)]
    ensures post.Keys == before.Keys && forall k :: k in post ==> post[k].schema == before[k].schema
    ensures forall j :: 0 <= j < i + 1 ==> Acceptable(post[order[j]].schema)
    ensures forall j :: 0 <= j < i + 1 ==> post[order[j]].value == post[order[j]].schema.default
    ensures forall j :: i + 1 <= j < |order| ==> post[order[j]] == before[order[j]]
  {
  }

  /** A schema whose own default passes its validators. */
  predicate Acceptable(s: Schema) {
    FirstError(s.validators, s.default).None?
  }

  /**
   * `resetToDefaults` stopped at the `j`-th key: its default is rejected, the keys
   * before it hold their defaults, it and the later keys are untouched.
   */
  ghost predicate StoppedAt(before: map<string, Entry>, after: map<string, Entry>, order: seq<string>, j: int)
    requires 0 <= j < |order|
    requires forall k :: k in order ==> k in before && k in after
  {
    && !Acceptable(before[order[j]].schema)
    && (forall i :: 0 <= i < j ==> after[order[i]].value == after[order[i]].schema.default)
    && (forall i :: j <= i < |order| ==> after[order[i]] == before[order[i]])
  }

  // ----------------------------------------------------------- message bus

  /** The answer the bus gives a message on its own. */
  datatype BusReply = Rejected(error: string) | Published(handlers: seq<Callback>)

  /** Removing the handler just subscribed restores the list when it held no earlier copy. */
  lemma {:induction false} UnsubscribeUndoesSubscribe(s: seq<Callback>, h: Callback)
    requires h !in s
    ensures RemoveFirst(s + [h], h) == s
  {
    var t := s + [h];
    assert t[|s|] == h && t[..|s|] == s;
    assert IndexOf(t, h) == |s|;
  }

  /** With an earlier copy present, unsubscribing removes that earlier one, not the newest. */
  lemma {:induction false} UnsubscribeRemovesFirstCopy(s: seq<Callback>, h: Callback)
    requires h in s
    ensures RemoveFirst(s + [h], h) == RemoveFirst(s, h) + [h]
  {
    var t := s + [h];
    var i := IndexOf(s, h);
    assert t[..i + 1] == s[..i + 1];
    assert IndexOf(t, h) == i by {
      assert t[i] == h && h !in t[..i];
    }
    assert t[i + 1..] == s[i + 1..] + [h];
  }

  class MessageBus {
    var subscribers: map<string, seq<Callback>>

    constructor()
      ensures subscribers == map[]
    {
      subscribers := map[];
    }

    /** `subscribe`: appends the handler to the type's list. */
    method Subscribe(msgType: string, h: Callback)
      modifies this
      ensures subscribers == Pushed(old(subscribers), msgType, h)
    {
      subscribers := Pushed(subscribers, msgType, h);
    }

    /** `unsubscribe`: splices out the first copy of the handler, if any. */
    method Unsubscribe(msgType: string, h: Callback)
      modifies this
      ensures msgType !in old(subscribers) ==> subscribers == old(subscribers)
      ensures msgType in old(subscribers) ==>
        subscribers == old(subscribers)[msgType := RemoveFirst(old(subscribers)[msgType], h)]
    {
      if msgType !in subscribers {
        return;
      }
      subscribers := subscribers[msgType := RemoveFirst(subscribers[msgType], h)];
    }

    /** The handlers `publish` calls for a type. */
    function Handlers(msgType: string): (r: seq<Callback>)
      reads this
      ensures msgType !in subscribers ==> r == []
      ensures msgType in subscribers ==> r == subscribers[msgType]
    {
      if msgType in subscribers then subscribers[msgType] else []
    }

    /**
     * The runtime listener: a message without a (truthy) type is answered at
     * once and the channel closed; any other is published to every handler of
     * its type and the channel kept open for their answer.
     */
    method Receive(msgType: Option<string>) returns (reply: BusReply, keepOpen: bool)
      ensures msgType.None? || msgType.value == "" <==> reply == Rejected("Message type required")
      ensures keepOpen <==> reply.Published?
      ensures reply.Published? ==> reply.handlers == Handlers(msgType.value)
    {
      if msgType.None? || msgType.value == "" {
        return Rejected("Message type required"), false;
      }
      return Published(Handlers(msgType.value)), true;
    }
  }
}
