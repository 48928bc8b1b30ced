/**
 * The log buffer of the log system plugin: a `LogSystem` object holds the
 * records logged so far, in the order they were logged. `log` validates its
 * three arguments and, when they are all non-empty strings, appends one
 * record stamped with the current time.
 *
 * The arguments of `log` are arbitrary JavaScript values, so they are
 * modelled by `SizeOf.Value`; the clock read is a parameter.
 */
module LogSystem {

  import opened SizeOf

  /** One buffered entry, the object `{timestamps, plugin, message, guid}`. */
  datatype Record = Record(timestamps: int, plugin: string, message: string, guid: string)

  /** `typeof v === 'string' && v.length > 0`. */
  predicate IsNonEmptyString(v: Value) {
    v.Str? && |v.s| > 0
  }

  /** What `log` accepts: all three arguments are non-empty strings. */
  predicate ValidArguments(guid: Value, pluginName: Value, message: Value) {
    IsNonEmptyString(guid) && IsNonEmptyString(pluginName) && IsNonEmptyString(message)
  }

  /** A record as the JavaScript object the buffer holds (keys in insertion order). */
  function RecordValue(r: Record): (v: Value)
    ensures v.Obj? && |v.fields| == 4 && DistinctKeys(v.fields)
    ensures Lookup(v.fields, "timestamps") == Some(Num(r.timestamps))
    ensures Lookup(v.fields, "plugin") == Some(Str(r.plugin))
    ensures Lookup(v.fields, "message") == Some(Str(r.message))
    ensures Lookup(v.fields, "guid") == Some(Str(r.guid))
  {
    var fs := [("timestamps", Num(r.timestamps)), ("plugin", Str(r.plugin)),
               ("message", Str(r.message)), ("guid", Str(r.guid))];
    LookupDistinct(fs, 2);
    LookupDistinct(fs, 3);
    Obj(fs)
  }

  /** The `logs` array as a JavaScript value, the form `sizeof(ls.logs)` measures. */
  function BufferValue(logs: seq<Record>): Value {
    Arr(seq(|logs|, i requires 0 <= i < |logs| => RecordValue(logs[i])))
  }

  /**
   * A record costs 62 (its four keys and the number) plus two per character
   * of its three strings.
   */
  lemma RecordCost(r: Record)
    ensures Sizeof(RecordValue(r)) == 62 + 2 * (|r.plugin| + |r.message| + |r.guid|)
  {
    var fs := RecordValue(r).fields;
    assert fs == fs[..3] + [fs[3]] && fs[..3] == fs[..2] + [fs[2]];
    assert fs[..2] == fs[..1] + [fs[1]] && fs[..1] == [] + [fs[0]];
    ObjAppend(fs[..3], "guid", Str(r.guid));
    ObjAppend(fs[..2], "message", Str(r.message));
    ObjAppend(fs[..1], "plugin", Str(r.plugin));
    ObjAppend([], "timestamps", Num(r.timestamps));
  }

  /** Pushing a record raises the buffer's cost by its index key and its own cost. */
  lemma BufferCostAppend(logs: seq<Record>, r: Record)
    ensures Sizeof(BufferValue(logs + [r]))
         == Sizeof(BufferValue(logs)) + 2 * |Decimal(|logs|)| + 62
            + 2 * (|r.plugin| + |r.message| + |r.guid|)
  {
    assert BufferValue(logs + [r]).elems == BufferValue(logs).elems + [RecordValue(r)];
    ArrAppend(BufferValue(logs).elems, RecordValue(r));
    RecordCost(r);
  }

  class LogSystem {
    /** The records logged so far, oldest first. */
    var logs: seq<Record>

    /** The descriptor the host uses to register the plugin. */
    static function GetRegistrationMeta(): (m: Value)
      ensures m.Obj? && |m.fields| == 3 && DistinctKeys(m.fields)
      ensures Lookup(m.fields, "type") == Some(Str("core"))
      ensures Lookup(m.fields, "title") == Some(Str("Система логирования"))
      ensures Lookup(m.fields, "name") == Some(Str("LogSystem"))
      ensures Lookup(m.fields, "init") == None
    {
      Obj([("type", Str("core")), ("title", Str("Система логирования")), ("name", Str("LogSystem"))])
    }

    /** A new log system starts with an empty buffer. */
    constructor ()
      ensures logs == []
    {
      logs := [];
    }

    /**
     * `log(guid, pluginName, message)` at clock reading `time`: when all three
     * arguments are non-empty strings, appends the record and answers true;
     * otherwise answers false and leaves the buffer as it was.
     */
    method Log(guid: Value, pluginName: Value, message: Value, time: int) returns (ok: bool)
      modifies this
      ensures ok <==> ValidArguments(guid, pluginName, message)
      ensures ok ==> logs == old(logs) + [Record(time, pluginName.s, message.s, guid.s)]
      ensures ok ==> (Sizeof(BufferValue(logs))
                      == Sizeof(BufferValue(old(logs))) + 2 * |Decimal(|old(logs)|)| + 62
                         + 2 * (|pluginName.s| + |message.s| + |guid.s|))
      ensures !ok ==> logs == old(logs)
    {
      if guid.Str? && pluginName.Str? && message.Str? &&
         |guid.s| > 0 && |pluginName.s| > 0 && |message.s| > 0
      {
        var entry := Record(time, pluginName.s, message.s, guid.s);
        BufferCostAppend(logs, entry);
        logs := logs + [entry];
        ok := true;
      } else {
        ok := false;
      }
    }
  }

  /**
   * The behaviour the plugin's own tests describe: a valid call is recorded
   * as the buffer's only entry, and calls with empty strings or with
   * non-string arguments are refused without touching the buffer.
   */
  method LogScenario(time: int) returns (accepted: bool, emptyAccepted: bool, wrongTypesAccepted: bool, entries: seq<Record>)
    ensures accepted && !emptyAccepted && !wrongTypesAccepted
    ensures entries == [Record(time, "testPlugin", "test record", "1")]
    ensures Sizeof(BufferValue(entries)) == 108
  {
    var ls := new LogSystem();
    accepted := ls.Log(Str("1"), Str("testPlugin"), Str("test record"), time);
    emptyAccepted := ls.Log(Str(""), Str(""), Str(""), time);
    wrongTypesAccepted := ls.Log(Num(1), Arr([]), Obj([]), time);
    entries := ls.logs;
    assert |Decimal(0)| == 1;
  }
}
