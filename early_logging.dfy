/** The earlier log of Log.php: its leader is another log of this framework given to the
    constructor, a log builds followers that report to it, and `filter` lists every
    record by default. Levels come from Structures.php. */
module EarlyLogging {
  import opened Php
  import opened PhpStrings
  import opened EarlyStructures
  import opened Selection

  /** The level argument of `log`: a level, or its name. */
  datatype LevelArg = Level(level: LogLevel) | Name(name: string)

  /** The call `log` makes on its leader: the method named after the level. */
  datatype LeaderCall = LeaderCall(methodName: string, message: string, context: Array<Value>, component: Option<string>)

  /** What one call of `log` does with its record. A level name that `fromString` does not
      know raises an `UnhandledMatchError` before anything happens. */
  datatype Outcome = UnknownLevel | Dropped | Stored(entry: LogEntry) | Forwarded(call: LeaderCall)

  /** Whether `filter($minLevel, $component)` lists the record. */
  predicate Selected(e: LogEntry, minLevel: LogLevel, component: Option<string>) {
    (component.None? || !Truthy(component.value) || e.component == component) && e.level.Value() >= minLevel.Value()
  }

  /** The records `filter` lists, in the order they were logged. */
  function Matching(messages: seq<LogEntry>, minLevel: LogLevel, component: Option<string>): seq<LogEntry> {
    Select(messages, e => Selected(e, minLevel, component))
  }

  class Log {
    var messages: seq<LogEntry>
    const component: Option<string>
    const minLevel: LogLevel
    const leader: Log?

    /** A log of the given component, minimum level (`TRACE` by default) and leader. */
    constructor(component: Option<string>, minLevel: LogLevel, leader: Log?)
      ensures this.component == component && this.minLevel == minLevel && this.leader == leader
      ensures messages == []
    {
      this.component := component;
      this.minLevel := minLevel;
      this.leader := leader;
      messages := [];
    }

    /** `makeFollower` for a log without a leader: a fresh log of the component, at this
        log's level, that reports to this one. A log that has a leader asks its injection
        container for the follower instead, which is `None` here. */
    method MakeFollower(component: string) returns (f: Option<Log>)
      ensures leader == null <==> f.Some?
      ensures f.Some? ==> fresh(f.value) && f.value.leader == this && f.value.minLevel == minLevel
                          && f.value.component == Some(component) && f.value.messages == []
    {
      if leader == null {
        var follower := new Log(Some(component), minLevel, this);
        f := Some(follower);
      } else {
        f := None;
      }
    }

    /** `log`: an unknown level name fails; a record below the minimum level is dropped;
        otherwise, with no leader, it is stored with the given component (or the log's own)
        and `now` as its time; with a leader, the leader's method of the level's name is
        called and nothing is stored. */
    method Log(level: LevelArg, message: string, context: Array<Value>, component: Option<string>, now: int)
      returns (outcome: Outcome)
      modifies this`messages
      ensures level.Name? && level.name !in Names ==> outcome == UnknownLevel
      ensures level.Level? || level.name in Names ==>
                var l := if level.Level? then level.level else FromString(level.name).value;
                var c := if component.Some? then component else this.component;
                && (l.Value() < minLevel.Value() ==> outcome == Dropped)
                && (l.Value() >= minLevel.Value() && leader == null ==>
                      outcome == Stored(LogEntry(l, message, context, c, now)))
                && (l.Value() >= minLevel.Value() && leader != null ==>
                      outcome == Forwarded(LeaderCall(l.ToString(), message, context, c)))
      ensures outcome.Stored? ==> messages == old(messages) + [outcome.entry]
      ensures !outcome.Stored? ==> messages == old(messages)
    {
      var l;
      if level.Level? {
        l := level.level;
      } else {
        var parsed := FromString(level.name);
        if parsed.None? {
          return UnknownLevel;
        }
        l := parsed.value;
      }
      if l.Value() >= minLevel.Value() {
        var c := if component.Some? then component else this.component;
        if leader != null {
          outcome := Forwarded(LeaderCall(l.ToString(), message, context, c));
        } else {
          var e := LogEntry(l, message, context, c, now);
          messages := messages + [e];
          outcome := Stored(e);
        }
      } else {
        outcome := Dropped;
      }
    }

    /** `trace` … `emergency`: each is `log` with its own level. */
    method LogAt(level: LogLevel, message: string, data: Array<Value>, component: Option<string>, now: int)
      returns (outcome: Outcome)
      modifies this`messages
      ensures var c := if component.Some? then component else this.component;
              && (level.Value() < minLevel.Value() ==> outcome == Dropped)
              && (level.Value() >= minLevel.Value() && leader == null ==>
                    outcome == Stored(LogEntry(level, message, data, c, now)))
              && (level.Value() >= minLevel.Value() && leader != null ==>
                    outcome == Forwarded(LeaderCall(level.ToString(), message, data, c)))
      ensures outcome.Stored? ==> messages == old(messages) + [outcome.entry]
      ensures !outcome.Stored? ==> messages == old(messages)
    {
      outcome := Log(Level(level), message, data, component, now);
    }

    /** `filter`: the stored records at or above `minLevel` (`TRACE` by default) whose
        component matches, in the order they were stored. */
    method Filter(minLevel: LogLevel, component: Option<string>) returns (ret: seq<LogEntry>)
      ensures ret == Matching(messages, minLevel, component)
    {
      ret := [];
      var i := 0;
      while i < |messages|
        invariant 0 <= i <= |messages|
        invariant ret == Matching(messages[..i], minLevel, component)
      {
        var message := messages[i];
        var matchModule := component.None? || !Truthy(component.value) || component == message.component;
        var matchLevel := message.level.Value() >= minLevel.Value();
        assert messages[..i + 1] == messages[..i] + [message];
        SelectSnoc(messages[..i], message, e => Selected(e, minLevel, component));
        if matchModule && matchLevel {
          ret := ret + [message];
        }
        i := i + 1;
      }
      assert messages[..i] == messages;
    }
  }

  /** With its default arguments `filter` lists every stored record, in order. */
  lemma DefaultFilterListsAll(messages: seq<LogEntry>)
    ensures Matching(messages, TRACE, None) == messages
  {
    SelectAll(messages, e => Selected(e, TRACE, None));
  }

  /** A component filter lists exactly the records of that component at or above the
      level, and keeps their order. */
  lemma ComponentFilter(messages: seq<LogEntry>, minLevel: LogLevel, component: string)
    requires Truthy(component)
    ensures forall e :: e in Matching(messages, minLevel, Some(component)) <==>
              e in messages && e.component == Some(component) && e.level.Value() >= minLevel.Value()
    ensures Subsequence(Matching(messages, minLevel, Some(component)), messages)
  {
    var keep := e => Selected(e, minLevel, Some(component));
    SelectSound(messages, keep);
    SelectComplete(messages, keep);
    forall e | e in messages && keep(e) ensures e in Matching(messages, minLevel, Some(component)) {
      var i :| 0 <= i < |messages| && messages[i] == e;
    }
    SelectSubsequence(messages, keep);
  }
}
