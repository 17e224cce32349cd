/** The diagnostic relay that the home page installs once, in its mount
    effect (app/page.tsx:18-89): `console.log`, `console.warn` and
    `console.error` are wrapped so that every call is still printed and is
    also posted to the embedding parent frame as
    `{type: "iframe-console", level, args}`; `window.onerror` and
    `window.onunhandledrejection` are replaced by handlers posting
    messages of the same shape.

    The browser is abstracted three ways: a JavaScript value is a `Value`
    tree whose `Unserialisable` leaves stand for what `JSON.stringify`
    rejects; `String(a)` is the parameter `show`; and the parent frame is a
    `Parent` whose `fault` says whether `postMessage` throws, and what. */
module Relay {
  import opened Common

  datatype Level = Log | Warn | Error

  /** The levels in the order the installer visits them. */
  const Levels: seq<Level> := [Log, Warn, Error]

  /** The discriminator every relayed message carries. */
  const Tag: string := "iframe-console"
  /** First argument of the report printed when posting throws. */
  const PostFailureNotice: string := "Failed to postMessage:"
  /** First argument of every relayed unhandled rejection. */
  const RejectionNotice: string := "Unhandled Promise Rejection:"

  /** A JavaScript value as far as the relay can tell them apart. */
  datatype Value =
    | Undefined
    | Null
    | Bool(b: bool)
    | Num(n: int)
    | Str(s: string)
    | Arr(elems: seq<Value>)
    | Obj(fields: seq<Field>)
      /** an object for which `instanceof Error` holds */
    | ErrorInstance(message: string, stack: string, name: string)
      /** an object `JSON.stringify` throws on (a cyclic structure, or one
          whose `toJSON` throws); `handle` tells such objects apart, and
          `props` are the properties it can still be read for */
    | Unserialisable(handle: nat, props: seq<Field>)

  datatype Field = Field(key: string, value: Value)

  /** What `window.parent.postMessage(message, "*")` receives. */
  datatype Message = Message(kind: string, level: Level, args: seq<Value>)

  /** `JSON.stringify(v)` returns without throwing. An `Error` serialises
      (as `{}`), so only the unserialisable leaves make it throw. */
  predicate Serialisable(v: Value)
  {
    match v
    case Unserialisable(_, _) => false
    case Arr(elems) => forall i :: 0 <= i < |elems| ==> Serialisable(elems[i])
    case Obj(fields) => forall i :: 0 <= i < |fields| ==> Serialisable(fields[i].value)
    case _ => true
  }

  /** JavaScript truthiness (there are no NaN or -0 among the numbers here). */
  predicate Truthy(v: Value)
  {
    match v
    case Undefined => false
    case Null => false
    case Bool(b) => b
    case Num(n) => n != 0
    case Str(s) => s != ""
    case _ => true
  }

  /** The value of the first field named `key`, `undefined` when none is. */
  function Lookup(fields: seq<Field>, key: string): (r: Value)
    ensures r != Undefined ==> exists i :: 0 <= i < |fields| && fields[i].key == key && fields[i].value == r
    ensures (forall i :: 0 <= i < |fields| ==> fields[i].key != key) ==> r == Undefined
  {
    if fields == [] then Undefined
    else if fields[0].key == key then fields[0].value
    else Lookup(fields[1..], key)
  }

  /** Property access `v[key]` for the properties the handlers read. */
  function GetProp(v: Value, key: string): Value
  {
    match v
    case ErrorInstance(message, stack, name) =>
      if key == "message" then Str(message)
      else if key == "stack" then Str(stack)
      else if key == "name" then Str(name)
      else Undefined
    case Obj(fields) => Lookup(fields, key)
    case Unserialisable(_, props) => Lookup(props, key)
    case _ => Undefined
  }

  /** The sanitiser of one console argument (app/page.tsx:27-41): an `Error`
      becomes `{message, stack, name}`, a value `JSON.stringify` accepts
      passes unchanged, anything else becomes `String(a)`, which `show` is
      taken never to throw. */
  function Sanitise(show: Value -> string, a: Value): (r: Value)
    ensures Serialisable(r) && !r.ErrorInstance?
    ensures a.ErrorInstance? ==>
      r == Obj([Field("message", Str(a.message)), Field("stack", Str(a.stack)), Field("name", Str(a.name))])
    ensures !a.ErrorInstance? && Serialisable(a) ==> r == a
    ensures !Serialisable(a) ==> r == Str(show(a))
  {
    if a.ErrorInstance? then
      var r := Obj([Field("message", Str(a.message)), Field("stack", Str(a.stack)), Field("name", Str(a.name))]);
      assert forall i :: 0 <= i < |r.fields| ==> r.fields[i].value.Str?;
      r
    else if Serialisable(a) then a
    else Str(show(a))
  }

  /** `args.map(sanitise)`: one output per argument, in the same order. */
  function SanitiseArgs(show: Value -> string, args: seq<Value>): (r: seq<Value>)
    ensures |r| == |args|
    ensures forall i :: 0 <= i < |args| ==> r[i] == Sanitise(show, args[i])
  {
    if args == [] then [] else [Sanitise(show, args[0])] + SanitiseArgs(show, args[1..])
  }

  /** Sanitising what is already sanitised changes nothing. */
  lemma SanitiseArgsIdempotent(show: Value -> string, args: seq<Value>)
    ensures SanitiseArgs(show, SanitiseArgs(show, args)) == SanitiseArgs(show, args)
  {
  }

  /** The message a console wrapper of `level` posts for `args`: tagged,
      at the wrapper's own level, one serialisable argument per input. */
  function ConsoleMessage(level: Level, show: Value -> string, args: seq<Value>): (r: Message)
    ensures r.kind == Tag && r.level == level && |r.args| == |args|
    ensures forall j :: 0 <= j < |r.args| ==> Serialisable(r.args[j]) && !r.args[j].ErrorInstance?
  {
    Message(Tag, level, SanitiseArgs(show, args))
  }

  /** What a console slot holds: the browser's own function for a level,
      or a relay wrapper around whatever the slot held before. */
  datatype ConsoleFn = Native(level: Level) | Wrapped(level: Level, original: ConsoleFn)

  /** The level of the browser function at the bottom of the wrappers. */
  function NativeLevel(f: ConsoleFn): Level
  {
    match f
    case Native(level) => level
    case Wrapped(_, original) => NativeLevel(original)
  }

  /** What can be observed: a line printed by the browser console, and a
      message the parent frame received. */
  datatype Event = Printed(level: Level, args: seq<Value>) | Sent(message: Message)

  /** `window.parent`: absent (`null`), or a frame whose `postMessage`
      throws `fault(m)` when that is `Some`, and delivers `m` otherwise.
      At top level `window.parent` is the window itself, a `Present` one. */
  datatype Parent = Absent | Present(fault: Message -> Option<Value>)

  /** The result of `window.parent?.postMessage(m, "*")`. */
  datatype PostOutcome = Skipped | Delivered | Threw(exception: Value)

  function PostResult(parent: Parent, m: Message): (r: PostOutcome)
    ensures r.Delivered? <==> parent.Present? && parent.fault(m).None?
    ensures r.Threw? <==> parent.Present? && parent.fault(m).Some?
    ensures r.Threw? ==> r.exception == parent.fault(m).value
  {
    match parent
    case Absent => Skipped
    case Present(fault) =>
      match fault(m)
      case None => Delivered
      case Some(e) => Threw(e)
  }

  /** The events a post attempt produces. */
  function Posted(outcome: PostOutcome, m: Message): seq<Event>
  {
    if outcome.Delivered? then [Sent(m)] else []
  }

  /** Everything that calling `f(...args)` makes observable, in order. A
      wrapper (app/page.tsx:22-52) first calls its original, then posts the
      sanitised arguments, and when posting throws reports that through
      the original once more; it never calls itself. */
  function Effects(f: ConsoleFn, args: seq<Value>, show: Value -> string, parent: Parent): seq<Event>
    decreases f
  {
    match f
    case Native(level) => [Printed(level, args)]
    case Wrapped(level, original) =>
      var m := ConsoleMessage(level, show, args);
      var outcome := PostResult(parent, m);
      Effects(original, args, show, parent)
        + Posted(outcome, m)
        + (if outcome.Threw? then Effects(original, [Str(PostFailureNotice), outcome.exception], show, parent) else [])
  }

  /** Whatever the nesting of wrappers, the first thing that happens is the
      browser printing the caller's arguments, unmodified. */
  lemma {:induction false} NativeOutputFirst(f: ConsoleFn, args: seq<Value>, show: Value -> string, parent: Parent)
    ensures |Effects(f, args, show, parent)| >= 1
    ensures Effects(f, args, show, parent)[0] == Printed(NativeLevel(f), args)
  {
    match f
    case Native(_) =>
    case Wrapped(_, original) =>
      NativeOutputFirst(original, args, show, parent);
  }

  /** A wrapper's events start with all of its original's events for the
      same arguments: the original runs to completion before any post. */
  lemma OriginalRunsFirst(level: Level, original: ConsoleFn, args: seq<Value>, show: Value -> string, parent: Parent)
    ensures Effects(original, args, show, parent) <= Effects(Wrapped(level, original), args, show, parent)
  {
  }

  /** A message relayed by the console wrappers: tagged, and every argument
      serialisable. */
  predicate WellFormedPost(m: Message)
  {
    m.kind == Tag && forall j :: 0 <= j < |m.args| ==> Serialisable(m.args[j])
  }

  predicate AllPostsWellFormed(events: seq<Event>)
  {
    forall i :: 0 <= i < |events| ==> events[i].Sent? ==> WellFormedPost(events[i].message)
  }

  lemma AllPostsWellFormedConcat(a: seq<Event>, b: seq<Event>)
    requires AllPostsWellFormed(a) && AllPostsWellFormed(b)
    ensures AllPostsWellFormed(a + b)
  {
  }

  /** However often the console was wrapped, everything it posts is tagged
      and carries only serialisable arguments. */
  lemma {:induction false} EffectsPostWellFormed(f: ConsoleFn, args: seq<Value>, show: Value -> string, parent: Parent)
    ensures AllPostsWellFormed(Effects(f, args, show, parent))
  {
    match f
    case Native(_) =>
    case Wrapped(level, original) =>
      var m := ConsoleMessage(level, show, args);
      var outcome := PostResult(parent, m);
      EffectsPostWellFormed(original, args, show, parent);
      assert WellFormedPost(m);
      AllPostsWellFormedConcat(Effects(original, args, show, parent), Posted(outcome, m));
      if outcome.Threw? {
        EffectsPostWellFormed(original, [Str(PostFailureNotice), outcome.exception], show, parent);
      }
      AllPostsWellFormedConcat(
        Effects(original, args, show, parent) + Posted(outcome, m),
        if outcome.Threw? then Effects(original, [Str(PostFailureNotice), outcome.exception], show, parent) else []);
  }

  /** The installed wrapper over the browser's function, in each of the
      three cases: no parent (print only), delivered (print, then the
      message with the wrapper's own level and the sanitised arguments),
      and a throwing `postMessage` (print, then exactly one report through
      the original; nothing is posted or retried). */
  lemma InstalledWrapperEffects(level: Level, args: seq<Value>, show: Value -> string, parent: Parent)
    ensures parent.Absent? ==>
      Effects(Wrapped(level, Native(level)), args, show, parent) == [Printed(level, args)]
    ensures parent.Present? && parent.fault(ConsoleMessage(level, show, args)).None? ==>
      Effects(Wrapped(level, Native(level)), args, show, parent)
        == [Printed(level, args), Sent(Message(Tag, level, SanitiseArgs(show, args)))]
    ensures parent.Present? && parent.fault(ConsoleMessage(level, show, args)).Some? ==>
      Effects(Wrapped(level, Native(level)), args, show, parent)
        == [Printed(level, args),
            Printed(level, [Str(PostFailureNotice), parent.fault(ConsoleMessage(level, show, args)).value])]
  {
  }

  /** Installing twice (the effect has no guard) posts every call twice. */
  lemma DoubleInstallPostsTwice(level: Level, args: seq<Value>, show: Value -> string, fault: Message -> Option<Value>)
    requires fault(ConsoleMessage(level, show, args)).None?
    ensures Effects(Wrapped(level, Wrapped(level, Native(level))), args, show, Present(fault))
      == [Printed(level, args), Sent(ConsoleMessage(level, show, args)), Sent(ConsoleMessage(level, show, args))]
  {
  }

  /** `{message: e.message, stack: e.stack}`, the error shape both global
      handlers post (app/page.tsx:66, 77). */
  function ErrorSummary(e: Value): Value
  {
    Obj([Field("message", GetProp(e, "message")), Field("stack", GetProp(e, "stack"))])
  }

  /** For an `Error`, the global handlers' shape is the console sanitiser's
      shape without the `name` field. */
  lemma ErrorSummaryDropsName(show: Value -> string, e: Value)
    requires e.ErrorInstance?
    ensures ErrorSummary(e).fields == Sanitise(show, e).fields[..2]
    ensures Lookup(ErrorSummary(e).fields, "name") == Undefined
    ensures Lookup(Sanitise(show, e).fields, "name") == Str(e.name)
  {
    var fields := Sanitise(show, e).fields;
    assert fields[0].key != "name" && fields[1].key != "name";
    assert Lookup(fields, "name") == Lookup(fields[1..], "name") == Lookup(fields[2..], "name");
    assert fields[2..] == [Field("name", Str(e.name))];
  }

  /** The arguments `window.onerror` posts (app/page.tsx:61-67). */
  function ErrorEventArgs(msg: Value, url: Value, line: Value, col: Value, error: Value): (r: seq<Value>)
    ensures |r| == 5 && r[..4] == [msg, url, line, col]
    ensures r[4] == Null <==> !Truthy(error)
    ensures error.ErrorInstance? ==> r[4] == Obj([Field("message", Str(error.message)), Field("stack", Str(error.stack))])
    ensures Truthy(error) ==> r[4] == Obj([Field("message", GetProp(error, "message")), Field("stack", GetProp(error, "stack"))])
  {
    [msg, url, line, col, if Truthy(error) then ErrorSummary(error) else Null]
  }

  function ErrorEventMessage(msg: Value, url: Value, line: Value, col: Value, error: Value): Message
  {
    Message(Tag, Error, ErrorEventArgs(msg, url, line, col, error))
  }

  /** The arguments `window.onunhandledrejection` posts (app/page.tsx:75-84):
      an `Error` reason is summarised, any other reason is posted raw,
      serialisable or not. */
  function RejectionArgs(reason: Value): (r: seq<Value>)
    ensures |r| == 2 && r[0] == Str(RejectionNotice)
    ensures reason.ErrorInstance? ==> r[1] == Obj([Field("message", Str(reason.message)), Field("stack", Str(reason.stack))])
    ensures !reason.ErrorInstance? ==> r[1] == reason
  {
    [Str(RejectionNotice), if reason.ErrorInstance? then ErrorSummary(reason) else reason]
  }

  function RejectionMessage(reason: Value): Message
  {
    Message(Tag, Error, RejectionArgs(reason))
  }

  /** The example of a global error with message "X", url "u", line 10,
      column 2 and an `Error("boom")`. */
  lemma ErrorEventExample(stack: string, name: string)
    ensures ErrorEventMessage(Str("X"), Str("u"), Num(10), Num(2), ErrorInstance("boom", stack, name))
      == Message("iframe-console", Error,
           [Str("X"), Str("u"), Num(10), Num(2), Obj([Field("message", Str("boom")), Field("stack", Str(stack))])])
  {
  }

  /** A thrown object `JSON.stringify` rejects, here one with a `message`
      property and a reference to itself, is still read for its properties:
      `onerror` posts its message, and `undefined` for the stack it lacks. */
  lemma UnserialisableErrorEventArgs(handle: nat, message: string)
    ensures ErrorEventArgs(Str("X"), Str("u"), Num(1), Num(1),
        Unserialisable(handle, [Field("message", Str(message))]))[4]
      == Obj([Field("message", Str(message)), Field("stack", Undefined)])
  {
  }

  /** What a global hook slot holds: whatever the page had before the
      relay (the browser's default or an earlier handler, both outside this
      model), or the relay's handler. */
  datatype Hook = Inherited | Relaying

  /** The window globals the relay touches, and the trace of what the
      browser console printed and the parent received. */
  class Window {
    /** The runtime's `String(a)`. */
    const show: Value -> string
    /** `window.parent`. */
    const parent: Parent
    var console: map<Level, ConsoleFn>
    var onerror: Hook
    var onunhandledrejection: Hook
    var trace: seq<Event>

    ghost predicate Valid()
      reads this
    {
      console.Keys == {Log, Warn, Error}
    }

    /** The page before the effect runs: browser functions, no hooks. */
    constructor (show: Value -> string, parent: Parent)
      ensures Valid()
      ensures this.show == show && this.parent == parent
      ensures console == map[Log := Native(Log), Warn := Native(Warn), Error := Native(Error)]
      ensures onerror == Inherited && onunhandledrejection == Inherited
      ensures trace == []
    {
      this.show := show;
      this.parent := parent;
      console := map[Log := Native(Log), Warn := Native(Warn), Error := Native(Error)];
      onerror := Inherited;
      onunhandledrejection := Inherited;
      trace := [];
    }

    /** The mount effect (app/page.tsx:19-88): each console slot is wrapped
      around what it held, and both hooks are overwritten, not chained. */
    method Install()
      requires Valid()
      modifies this
      ensures Valid()
      ensures forall level :: level in console ==> console[level] == Wrapped(level, old(console)[level])
      ensures onerror == Relaying && onunhandledrejection == Relaying
      ensures trace == old(trace)
    {
      var i := 0;
      while i < |Levels|
        invariant 0 <= i <= |Levels|
        invariant console.Keys == old(console).Keys
        invariant forall j :: 0 <= j < i ==> console[Levels[j]] == Wrapped(Levels[j], old(console)[Levels[j]])
        invariant forall j :: i <= j < |Levels| ==> console[Levels[j]] == old(console)[Levels[j]]
        invariant trace == old(trace)
      {
        var level := Levels[i];
        var original := console[level];
        console := console[level := Wrapped(level, original)];
        i := i + 1;
      }
      assert Levels[0] == Log && Levels[1] == Warn && Levels[2] == Error;
      onerror := Relaying;
      onunhandledrejection := Relaying;
    }

    /** `console[level](...args)`. */
    method Call(level: Level, args: seq<Value>)
      requires Valid()
      modifies this`trace
      ensures trace == old(trace) + Effects(console[level], args, show, parent)
    {
      Invoke(console[level], args);
    }

    /** Runs whatever a console slot holds. */
    method Invoke(f: ConsoleFn, args: seq<Value>)
      modifies this`trace
      ensures trace == old(trace) + Effects(f, args, show, parent)
      decreases f, 1
    {
      match f
      case Native(level) =>
        trace := trace + [Printed(level, args)];
      case Wrapped(level, original) =>
        RunWrapper(level, original, args);
    }

    /** The body of the wrapper installed for `level` (app/page.tsx:22-52). */
    method RunWrapper(level: Level, original: ConsoleFn, args: seq<Value>)
      modifies this`trace
      ensures trace == old(trace) + Effects(Wrapped(level, original), args, show, parent)
      decreases Wrapped(level, original), 0
    {
      ghost var before := trace;
      Invoke(original, args);
      ghost var printed := Effects(original, args, show, parent);
      var safeArgs := SanitiseArgs(show, args);
      var m := Message(Tag, level, safeArgs);
      assert m == ConsoleMessage(level, show, args);
      var outcome := Post(m);
      ghost var report: seq<Event> := [];
      if outcome.Threw? {
        Invoke(original, [Str(PostFailureNotice), outcome.exception]);
        report := Effects(original, [Str(PostFailureNotice), outcome.exception], show, parent);
      }
      assert trace == before + (printed + Posted(outcome, m) + report);
    }

    /** `window.parent?.postMessage(m, "*")`. */
    method Post(m: Message) returns (outcome: PostOutcome)
      modifies this`trace
      ensures outcome == PostResult(parent, m)
      ensures trace == old(trace) + Posted(outcome, m)
    {
      match parent
      case Absent =>
        outcome := Skipped;
      case Present(fault) =>
        match fault(m)
        case None =>
          trace := trace + [Sent(m)];
          outcome := Delivered;
        case Some(e) =>
          outcome := Threw(e);
    }

    /** An uncaught error reaches `window.onerror`. The relay's handler has
      no try/catch: a `Threw` outcome is an exception leaving the handler. */
    method RaiseError(msg: Value, url: Value, line: Value, col: Value, error: Value) returns (outcome: PostOutcome)
      modifies this`trace
      ensures outcome == if onerror == Relaying then PostResult(parent, ErrorEventMessage(msg, url, line, col, error)) else Skipped
      ensures trace == old(trace) + Posted(outcome, ErrorEventMessage(msg, url, line, col, error))
    {
      if onerror == Relaying {
        outcome := Post(ErrorEventMessage(msg, url, line, col, error));
      } else {
        outcome := Skipped;
      }
    }

    /** A promise rejection nobody handles reaches
      `window.onunhandledrejection`; no try/catch there either. */
    method RejectUnhandled(reason: Value) returns (outcome: PostOutcome)
      modifies this`trace
      ensures outcome == if onunhandledrejection == Relaying then PostResult(parent, RejectionMessage(reason)) else Skipped
      ensures trace == old(trace) + Posted(outcome, RejectionMessage(reason))
    {
      if onunhandledrejection == Relaying {
        outcome := Post(RejectionMessage(reason));
      } else {
        outcome := Skipped;
      }
    }
  }
}
