/** The in-memory log of src/Log.php: it keeps the records at or above its minimum level,
    or hands them on to a leader logger once one is set, and lists the records it kept by
    level and component. */
module Logging {
  import opened Php
  import opened PhpStrings
  import opened LogLevels
  import opened Selection

  /** A `LogEntry`: level, message, context, component and the time it was made. */
  datatype Entry = Entry(level: LogLevel, message: string, context: Array<Value>,
                         component: Option<string>, time: int)

  /** The level argument of `log`: a level, or its name. */
  datatype LevelArg = Level(level: LogLevel) | Name(name: string)

  /** What the leader set by `setLogger` is: none, another logger of this framework (a
      `LogInterface`), or any other PSR-3 logger. */
  datatype Leader = NoLeader | KragLeader | PsrLeader

  /** The call `log` makes on its leader: the method named after the level, with the
      component only when the leader is one of this framework's loggers. */
  datatype LeaderCall =
    | KragCall(methodName: string, message: string, context: Array<Value>, component: Option<string>)
    | PsrCall(methodName: string, message: string, context: Array<Value>)

  /** What one call of `log` does with its record. */
  datatype Outcome = Dropped | Stored(entry: Entry) | Forwarded(call: LeaderCall)

  /** A level given by name goes through `LogLevel::fromString`. */
  function Resolve(level: LevelArg): (l: LogLevel)
    ensures level.Level? ==> l == level.level
    ensures level.Name? && level.name in Names ==> l.ToString() == level.name
    ensures level.Name? && level.name !in Names ==> l == DEBUG
  {
    match level
    case Level(l) => l
    case Name(s) => FromString(s)
  }

  /** `!$component || $component == $message->component`: a missing or falsy component
      matches every record. */
  predicate ComponentMatches(component: Option<string>, recorded: Option<string>) {
    component.None? || !Truthy(component.value) || recorded == component
  }

  /** Whether `filter($minLevel, $component)` lists the record. */
  predicate Selected(e: Entry, minLevel: LogLevel, component: Option<string>) {
    ComponentMatches(component, e.component) && e.level.Value() >= minLevel.Value()
  }

  /** The records `filter` lists, in the order they were logged. */
  function Matching(messages: seq<Entry>, minLevel: LogLevel, component: Option<string>): seq<Entry> {
    Select(messages, e => Selected(e, minLevel, component))
  }

  class Log {
    var messages: seq<Entry>
    var leader: Leader
    const component: Option<string>
    const minLevel: LogLevel

    /** A log of the given component that keeps records from `minLevel` up (`TRACE` by
        default): no records and no leader yet. */
    constructor(component: Option<string>, minLevel: LogLevel)
      ensures this.component == component && this.minLevel == minLevel
      ensures messages == [] && leader == NoLeader
    {
      this.component := component;
      this.minLevel := minLevel;
      messages := [];
      leader := NoLeader;
    }

    /** `setLogger`: every later record goes to the leader. */
    method SetLogger(logger: Leader)
      requires logger != NoLeader
      modifies this`leader
      ensures leader == logger
    {
      leader := logger;
    }

    /** `log`: a record below the minimum level is dropped; otherwise, with no leader, it is
        stored with the given component (or the log's own) and `now` as its time; with a
        leader, it is passed on and nothing is stored. */
    method Log(level: LevelArg, message: string, context: Array<Value>, component: Option<string>, now: int)
      returns (outcome: Outcome)
      modifies this`messages
      ensures var l := Resolve(level);
              var c := if component.Some? then component else this.component;
              && (l.Value() < minLevel.Value() ==> outcome == Dropped)
              && (l.Value() >= minLevel.Value() && leader == NoLeader ==>
                    outcome == Stored(Entry(l, message, context, c, now)))
              && (l.Value() >= minLevel.Value() && leader == KragLeader ==>
                    outcome == Forwarded(KragCall(l.ToString(), message, context, c)))
              && (l.Value() >= minLevel.Value() && leader == PsrLeader ==>
                    outcome == Forwarded(PsrCall(l.ToPSR(), message, context)))
      ensures outcome.Stored? ==> messages == old(messages) + [outcome.entry]
      ensures !outcome.Stored? ==> messages == old(messages)
    {
      var l := Resolve(level);
      if l.Value() >= minLevel.Value() {
        var c := if component.Some? then component else this.component;
        if leader == KragLeader {
          outcome := Forwarded(KragCall(l.ToString(), message, context, c));
        } else if leader == PsrLeader {
          outcome := Forwarded(PsrCall(l.ToPSR(), message, context));
        } else {
          var e := Entry(l, message, context, c, now);
          messages := messages + [e];
          outcome := Stored(e);
        }
      } else {
        outcome := Dropped;
      }
    }

    /** `trace`, `debug`, `info`, `notice`, `warning`, `error`, `critical`, `alert` and
        `emergency`: each is `log` with its own level. */
    method LogAt(level: LogLevel, message: string, data: Array<Value>, component: Option<string>, now: int)
      returns (outcome: Outcome)
      modifies this`messages
      ensures var c := if component.Some? then component else this.component;
              && (level.Value() < minLevel.Value() ==> outcome == Dropped)
              && (level.Value() >= minLevel.Value() && leader == NoLeader ==>
                    outcome == Stored(Entry(level, message, data, c, now)))
              && (level.Value() >= minLevel.Value() && leader == KragLeader ==>
                    outcome == Forwarded(KragCall(level.ToString(), message, data, c)))
              && (level.Value() >= minLevel.Value() && leader == PsrLeader ==>
                    outcome == Forwarded(PsrCall(level.ToPSR(), message, data)))
      ensures outcome.Stored? ==> messages == old(messages) + [outcome.entry]
      ensures !outcome.Stored? ==> messages == old(messages)
    {
      outcome := Log(Level(level), message, data, component, now);
    }

    /** `filter`: the stored records at or above `minLevel` (`DEBUG` by default) whose
        component matches, in the order they were stored. */
    method Filter(minLevel: LogLevel, component: Option<string>) returns (ret: seq<Entry>)
      ensures ret == Matching(messages, minLevel, component)
    {
      ret := [];
      var i := 0;
      while i < |messages|
        invariant 0 <= i <= |messages|
        invariant ret == Matching(messages[..i], minLevel, component)
      {
        var message := messages[i];
        var matchModule := component.None? || !Truthy(component.value) || component == message.component;
        var matchLevel := message.level.Value() >= minLevel.Value();
        assert messages[..i + 1] == messages[..i] + [message];
        SelectSnoc(messages[..i], message, e => Selected(e, minLevel, component));
        if matchModule && matchLevel {
          ret := ret + [message];
        }
        i := i + 1;
      }
      assert messages[..i] == messages;
    }
  }

  /** `filter` lists exactly the stored records that meet its level and component, and
      keeps their order. */
  lemma MatchingExactly(messages: seq<Entry>, minLevel: LogLevel, component: Option<string>)
    ensures forall e :: e in Matching(messages, minLevel, component) <==> e in messages && Selected(e, minLevel, component)
    ensures Subsequence(Matching(messages, minLevel, component), messages)
  {
    var keep := e => Selected(e, minLevel, component);
    SelectSound(messages, keep);
    SelectComplete(messages, keep);
    forall e | e in messages && Selected(e, minLevel, component)
      ensures e in Matching(messages, minLevel, component)
    {
      var i :| 0 <= i < |messages| && messages[i] == e;
    }
    SelectSubsequence(messages, keep);
  }

  /** With the default arguments, `filter` lists every record but the `TRACE` ones. */
  lemma DefaultFilterHidesTrace(messages: seq<Entry>)
    ensures forall e :: e in Matching(messages, DEBUG, None) <==> e in messages && e.level != TRACE
  {
    MatchingExactly(messages, DEBUG, None);
  }

  /** At the lowest level and with no component, `filter` lists every stored record. */
  lemma FilterTraceListsAll(messages: seq<Entry>, component: Option<string>)
    requires component.None? || !Truthy(component.value)
    ensures Matching(messages, TRACE, component) == messages
  {
    SelectAll(messages, e => Selected(e, TRACE, component));
  }

  /** Filtering what `filter` returned with the same arguments changes nothing. */
  lemma FilterIdempotent(messages: seq<Entry>, minLevel: LogLevel, component: Option<string>)
    ensures Matching(Matching(messages, minLevel, component), minLevel, component) == Matching(messages, minLevel, component)
  {
    SelectIdempotent(messages, e => Selected(e, minLevel, component));
  }

  /** A record stored by `log` shows up at the end of every `filter` whose level and
      component it meets, and changes no other `filter`. */
  lemma StoredRecordListed(messages: seq<Entry>, e: Entry, minLevel: LogLevel, component: Option<string>)
    ensures Selected(e, minLevel, component) ==>
              Matching(messages + [e], minLevel, component) == Matching(messages, minLevel, component) + [e]
    ensures !Selected(e, minLevel, component) ==>
              Matching(messages + [e], minLevel, component) == Matching(messages, minLevel, component)
  {
    SelectSnoc(messages, e, e => Selected(e, minLevel, component));
  }
}
