/**
The JSON form of a task, as a tree. Compare-and-swap in the store compares these, and
convergence re-serialises what it has parsed, so decoding must undo encoding exactly.
*/
module TaskJson {
  import opened Models

  datatype Json =
    | Null
    | Bool(b: bool)
    | Num(n: int)
    | Str(s: string)
    | Arr(items: seq<Json>)
    | Obj(fields: map<string, Json>)

  // ---------- Encoding ----------

  function EncodeStrings(xs: seq<string>): seq<Json> {
    seq(|xs|, i requires 0 <= i < |xs| => Str(xs[i]))
  }

  /** A nil slice is null, an empty one an empty array. */
  function EncodeVariable(v: Option<seq<string>>): Json {
    match v case None => Null case Some(xs) => Arr(EncodeStrings(xs))
  }

  function EncodeEnv(env: Option<seq<Option<seq<string>>>>): Json {
    match env
    case None => Null
    case Some(vs) => Arr(seq(|vs|, i requires 0 <= i < |vs| => EncodeVariable(vs[i])))
  }

  function Envelope(name: string, args: Json): Json {
    Obj(map["action" := Str(name), "args" := args])
  }

  /** `None` where the source returns InvalidActionConversion. */
  function EncodeAction(a: Action): Option<Json> {
    match a
    case Download(from, to, extract) =>
      Some(Envelope("download", Obj(map["from" := Str(from), "to" := Str(to), "extract" := Bool(extract)])))
    case Run(script, env, timeout) =>
      Some(Envelope("run", Obj(map["script" := Str(script), "env" := EncodeEnv(env), "timeout" := Num(timeout)])))
    case Upload(to, from) => Some(Envelope("upload", Obj(map["to" := Str(to), "from" := Str(from)])))
    case FetchResult(file) => Some(Envelope("fetch_result", Obj(map["file" := Str(file)])))
    case Unsupported => None
  }

  function EncodeLog(l: LogConfig): Json {
    Obj(map["guid" := Str(l.guid), "source_name" := Str(l.sourceName),
            "index" := if l.index.Some? then Num(l.index.value) else Null])
  }

  function StateCode(s: TaskState): int {
    match s
    case Invalid => 0
    case Pending => 1
    case Claimed => 2
    case Running => 3
    case Completed => 4
    case Resolving => 5
    case Unknown(n) => n
  }

  function EncodeActions(actions: Option<seq<Action>>): Json
    requires actions.Some? ==> Unsupported !in actions.value
  {
    match actions
    case None => Null
    case Some(xs) => Arr(seq(|xs|, i requires 0 <= i < |xs| => EncodeAction(xs[i]).value))
  }

  /** ToJSON, which panics on a task that is not encodable. */
  function Encode(t: Task): Json
    requires Encodable(t)
  {
    Obj(map[
      "guid" := Str(t.guid),
      "actions" := EncodeActions(t.actions),
      "stack" := Str(t.stack),
      "file_descriptors" := Num(t.fileDescriptors),
      "memory_mb" := Num(t.memoryMB),
      "disk_mb" := Num(t.diskMB),
      "log" := EncodeLog(t.log),
      "created_at" := Num(t.createdAt),
      "updated_at" := Num(t.updatedAt),
      "state" := Num(StateCode(t.state)),
      "reply_to" := Str(t.replyTo),
      "executor_id" := Str(t.executorId),
      "container_handle" := Str(t.containerHandle),
      "result" := Str(t.result),
      "failed" := Bool(t.failed),
      "failure_reason" := Str(t.failureReason)])
  }

  // ---------- Decoding ----------

  /** An absent member is treated like null. */
  function Member(m: map<string, Json>, key: string): Json {
    if key in m then m[key] else Null
  }

  /** Null leaves the zero value; a value of another type is an error. */
  function DecodeString(j: Json): Option<string> {
    match j case Null => Some("") case Str(s) => Some(s) case _ => None
  }

  function DecodeInt(j: Json): Option<int> {
    match j case Null => Some(0) case Num(n) => Some(n) case _ => None
  }

  function DecodeBool(j: Json): Option<bool> {
    match j case Null => Some(false) case Bool(b) => Some(b) case _ => None
  }

  /** The members of an object; null decodes into a struct without touching it. */
  function DecodeObject(j: Json): Option<map<string, Json>> {
    match j case Null => Some(map[]) case Obj(m) => Some(m) case _ => None
  }

  /** Each item in turn; one failure fails the whole. */
  function All<T>(items: seq<Json>, decode: Json -> Option<T>): Option<seq<T>> {
    if items == [] then Some([]) else
      var rest := All(items[..|items| - 1], decode);
      var last := decode(items[|items| - 1]);
      if rest.None? || last.None? then None else Some(rest.value + [last.value])
  }

  function DecodeSlice<T>(j: Json, decode: Json -> Option<T>): Option<Option<seq<T>>> {
    match j
    case Null => Some(None)
    case Arr(items) =>
      var xs := All(items, decode);
      if xs.None? then None else Some(Some(xs.value))
    case _ => None
  }

  function DecodeVariable(j: Json): Option<Option<seq<string>>> {
    DecodeSlice(j, DecodeString)
  }

  function DecodeIndex(j: Json): Option<Option<int>> {
    match j case Null => Some(None) case Num(n) => Some(Some(n)) case _ => None
  }

  function DecodeLog(j: Json): Option<LogConfig> {
    var m := DecodeObject(j);
    if m.None? then None else
      var guid := DecodeString(Member(m.value, "guid"));
      var source := DecodeString(Member(m.value, "source_name"));
      var index := DecodeIndex(Member(m.value, "index"));
      if guid.None? || source.None? || index.None? then None
      else Some(LogConfig(guid.value, source.value, index.value))
  }

  function DecodeDownload(m: map<string, Json>): Option<Action> {
    var from := DecodeString(Member(m, "from"));
    var to := DecodeString(Member(m, "to"));
    var extract := DecodeBool(Member(m, "extract"));
    if from.None? || to.None? || extract.None? then None else Some(Download(from.value, to.value, extract.value))
  }

  function DecodeRun(m: map<string, Json>): Option<Action> {
    var script := DecodeString(Member(m, "script"));
    var env := DecodeSlice(Member(m, "env"), DecodeVariable);
    var timeout := DecodeInt(Member(m, "timeout"));
    if script.None? || env.None? || timeout.None? then None else Some(Run(script.value, env.value, timeout.value))
  }

  function DecodeUpload(m: map<string, Json>): Option<Action> {
    var to := DecodeString(Member(m, "to"));
    var from := DecodeString(Member(m, "from"));
    if to.None? || from.None? then None else Some(Upload(to.value, from.value))
  }

  function DecodeFetchResult(m: map<string, Json>): Option<Action> {
    var file := DecodeString(Member(m, "file"));
    if file.None? then None else Some(FetchResult(file.value))
  }

  /** The tag chooses how the arguments are read. */
  function DecodeAction(j: Json): Option<Action> {
    var e := DecodeObject(j);
    if e.None? then None else
      var name := DecodeString(Member(e.value, "action"));
      var args := Member(e.value, "args");
      if name.None? || !args.Obj? then None
      else if name.value == "download" then DecodeDownload(args.fields)
      else if name.value == "run" then DecodeRun(args.fields)
      else if name.value == "upload" then DecodeUpload(args.fields)
      else if name.value == "fetch_result" then DecodeFetchResult(args.fields)
      else None
  }

  function StateFromCode(n: int): TaskState {
    if n == 0 then Invalid
    else if n == 1 then Pending
    else if n == 2 then Claimed
    else if n == 3 then Running
    else if n == 4 then Completed
    else if n == 5 then Resolving
    else Unknown(n)
  }

  function Decode(j: Json): Option<Task> {
    var o := DecodeObject(j);
    if o.None? then None else
      var m := o.value;
      var guid := DecodeString(Member(m, "guid"));
      var actions := DecodeSlice(Member(m, "actions"), DecodeAction);
      var stack := DecodeString(Member(m, "stack"));
      var fileDescriptors := DecodeInt(Member(m, "file_descriptors"));
      var memoryMB := DecodeInt(Member(m, "memory_mb"));
      var diskMB := DecodeInt(Member(m, "disk_mb"));
      var log := DecodeLog(Member(m, "log"));
      var createdAt := DecodeInt(Member(m, "created_at"));
      var updatedAt := DecodeInt(Member(m, "updated_at"));
      var state := DecodeInt(Member(m, "state"));
      var replyTo := DecodeString(Member(m, "reply_to"));
      var executorId := DecodeString(Member(m, "executor_id"));
      var containerHandle := DecodeString(Member(m, "container_handle"));
      var result := DecodeString(Member(m, "result"));
      var failed := DecodeBool(Member(m, "failed"));
      var failureReason := DecodeString(Member(m, "failure_reason"));
      if guid.None? || actions.None? || stack.None? || fileDescriptors.None? || memoryMB.None? || diskMB.None?
         || log.None? || createdAt.None? || updatedAt.None? || state.None? || replyTo.None? || executorId.None?
         || containerHandle.None? || result.None? || failed.None? || failureReason.None?
      then None
      else Some(Task(guid.value, actions.value, stack.value, fileDescriptors.value, memoryMB.value, diskMB.value,
                     log.value, createdAt.value, updatedAt.value, StateFromCode(state.value), replyTo.value,
                     executorId.value, containerHandle.value, result.value, failed.value, failureReason.value))
  }

  // ---------- Decoding undoes encoding ----------

  lemma {:induction false} AllInverts<T>(items: seq<Json>, decode: Json -> Option<T>, xs: seq<T>)
    requires |items| == |xs| && forall i :: 0 <= i < |xs| ==> decode(items[i]) == Some(xs[i])
    ensures All(items, decode) == Some(xs)
    decreases |xs|
  {
    if xs != [] {
      AllInverts(items[..|items| - 1], decode, xs[..|xs| - 1]);
      assert xs == xs[..|xs| - 1] + [xs[|xs| - 1]];
    }
  }

  lemma VariableInverts(v: Option<seq<string>>)
    ensures DecodeVariable(EncodeVariable(v)) == Some(v)
  {
    if v.Some? {
      AllInverts(EncodeStrings(v.value), DecodeString, v.value);
    }
  }

  lemma EnvInverts(env: Option<seq<Option<seq<string>>>>)
    ensures DecodeSlice(EncodeEnv(env), DecodeVariable) == Some(env)
  {
    if env.Some? {
      forall i | 0 <= i < |env.value| ensures DecodeVariable(EncodeVariable(env.value[i])) == Some(env.value[i]) {
        VariableInverts(env.value[i]);
      }
      AllInverts(EncodeEnv(env).items, DecodeVariable, env.value);
    }
  }

  lemma ActionInverts(a: Action)
    requires a != Unsupported
    ensures EncodeAction(a).Some? && DecodeAction(EncodeAction(a).value) == Some(a)
  {
    if a.Run? { EnvInverts(a.env); }
  }

  lemma ActionsInvert(actions: Option<seq<Action>>)
    requires actions.Some? ==> Unsupported !in actions.value
    ensures DecodeSlice(EncodeActions(actions), DecodeAction) == Some(actions)
  {
    if actions.Some? {
      forall i | 0 <= i < |actions.value|
        ensures DecodeAction(EncodeAction(actions.value[i]).value) == Some(actions.value[i])
      {
        ActionInverts(actions.value[i]);
      }
      AllInverts(EncodeActions(actions).items, DecodeAction, actions.value);
    }
  }

  lemma LogInverts(l: LogConfig)
    ensures DecodeLog(EncodeLog(l)) == Some(l)
  {
  }

  lemma StateInverts(s: TaskState)
    ensures StateFromCode(StateCode(s)) == s
  {
  }

  /** The members that say what the work is. */
  ghost predicate WorkMembers(m: map<string, Json>, t: Task)
    requires Encodable(t)
  {
    && Member(m, "guid") == Str(t.guid)
    && Member(m, "actions") == EncodeActions(t.actions)
    && Member(m, "log") == EncodeLog(t.log)
    && Member(m, "reply_to") == Str(t.replyTo)
  }

  /** The members that say what it needs. */
  ghost predicate NeedsMembers(m: map<string, Json>, t: Task) {
    && Member(m, "stack") == Str(t.stack)
    && Member(m, "file_descriptors") == Num(t.fileDescriptors)
    && Member(m, "memory_mb") == Num(t.memoryMB)
    && Member(m, "disk_mb") == Num(t.diskMB)
  }

  /** The members that say how far it is. */
  ghost predicate ProgressMembers(m: map<string, Json>, t: Task) {
    && Member(m, "created_at") == Num(t.createdAt)
    && Member(m, "updated_at") == Num(t.updatedAt)
    && Member(m, "state") == Num(StateCode(t.state))
    && Member(m, "executor_id") == Str(t.executorId)
    && Member(m, "container_handle") == Str(t.containerHandle)
    && Member(m, "result") == Str(t.result)
    && Member(m, "failed") == Bool(t.failed)
    && Member(m, "failure_reason") == Str(t.failureReason)
  }

  lemma EncodesWork(t: Task)
    requires Encodable(t)
    ensures Encode(t).Obj? && WorkMembers(Encode(t).fields, t)
  {
    hide EncodeActions, EncodeLog;
  }

  lemma EncodesNeeds(t: Task)
    requires Encodable(t)
    ensures Encode(t).Obj? && NeedsMembers(Encode(t).fields, t)
  {
    hide EncodeActions, EncodeLog;
  }

  lemma EncodesProgress(t: Task)
    requires Encodable(t)
    ensures Encode(t).Obj? && ProgressMembers(Encode(t).fields, t)
  {
  }

  lemma MembersDecode(m: map<string, Json>, t: Task)
    requires Encodable(t) && WorkMembers(m, t) && NeedsMembers(m, t) && ProgressMembers(m, t)
    ensures Decode(Obj(m)) == Some(t)
  {
    ActionsInvert(t.actions);
    LogInverts(t.log);
    StateInverts(t.state);
  }

  /** Decoding an encoded task gives the task back, nil and empty lists told apart. */
  lemma DecodeInvertsEncode(t: Task)
    requires Encodable(t)
    ensures Decode(Encode(t)) == Some(t)
  {
    EncodesWork(t);
    EncodesNeeds(t);
    EncodesProgress(t);
    MembersDecode(Encode(t).fields, t);
  }

  /** Tasks are equal exactly when their serialised forms are: comparing stored values
      compares tasks. */
  lemma EncodeInjective(t: Task, u: Task)
    requires Encodable(t) && Encodable(u)
    ensures Encode(t) == Encode(u) <==> t == u
  {
    DecodeInvertsEncode(t);
    DecodeInvertsEncode(u);
  }

  // ---------- The wire format ----------

  const MEMBERS := {"guid", "actions", "stack", "file_descriptors", "memory_mb", "disk_mb", "log", "created_at",
                    "updated_at", "state", "reply_to", "executor_id", "container_handle", "result", "failed",
                    "failure_reason"}

  lemma WireStates(n: OtherCode)
    ensures StateCode(Invalid) == 0 && StateCode(Pending) == 1 && StateCode(Claimed) == 2
    ensures StateCode(Running) == 3 && StateCode(Completed) == 4 && StateCode(Resolving) == 5
    ensures StateCode(Unknown(n)) == n
  {
  }

  /** A nil list is null, an empty one an empty array. */
  lemma WireLists(env: Option<seq<Option<seq<string>>>>, actions: Option<seq<Action>>)
    requires actions.Some? ==> Unsupported !in actions.value
    ensures match env
            case None => EncodeEnv(env) == Null
            case Some(vs) =>
              && EncodeEnv(env).Arr? && |EncodeEnv(env).items| == |vs|
              && forall i :: 0 <= i < |vs| ==>
                   var v := EncodeEnv(env).items[i];
                   if vs[i].None? then v == Null
                   else v.Arr? && |v.items| == |vs[i].value|
                        && forall j :: 0 <= j < |v.items| ==> v.items[j] == Str(vs[i].value[j])
    ensures match actions
            case None => EncodeActions(actions) == Null
            case Some(xs) =>
              && EncodeActions(actions).Arr? && |EncodeActions(actions).items| == |xs|
              && forall i :: 0 <= i < |xs| ==> Some(EncodeActions(actions).items[i]) == EncodeAction(xs[i])
  {
  }

  /** Each action with its tag, and its arguments by name. */
  lemma WireActions(from: string, to: string, extract: bool, script: string, env: Option<seq<Option<seq<string>>>>,
                    timeout: int, file: string)
    ensures EncodeAction(Download(from, to, extract)) ==
              Some(Obj(map["action" := Str("download"),
                           "args" := Obj(map["from" := Str(from), "to" := Str(to), "extract" := Bool(extract)])]))
    ensures EncodeAction(Run(script, env, timeout)) ==
              Some(Obj(map["action" := Str("run"),
                           "args" := Obj(map["script" := Str(script), "env" := EncodeEnv(env), "timeout" := Num(timeout)])]))
    ensures EncodeAction(Upload(to, from)) ==
              Some(Obj(map["action" := Str("upload"), "args" := Obj(map["to" := Str(to), "from" := Str(from)])]))
    ensures EncodeAction(FetchResult(file)) ==
              Some(Obj(map["action" := Str("fetch_result"), "args" := Obj(map["file" := Str(file)])]))
    ensures EncodeAction(Unsupported) == None
  {
  }

  /** A task's members by name, and no others. */
  lemma WireTask(t: Task)
    requires Encodable(t)
    ensures Encode(t).Obj?
    ensures var m := Encode(t).fields;
      && m.Keys == MEMBERS
      && m["guid"] == Str(t.guid) && m["actions"] == EncodeActions(t.actions) && m["stack"] == Str(t.stack)
      && m["file_descriptors"] == Num(t.fileDescriptors) && m["memory_mb"] == Num(t.memoryMB)
      && m["disk_mb"] == Num(t.diskMB)
      && m["log"] == Obj(map["guid" := Str(t.log.guid), "source_name" := Str(t.log.sourceName),
                             "index" := if t.log.index.Some? then Num(t.log.index.value) else Null])
      && m["created_at"] == Num(t.createdAt) && m["updated_at"] == Num(t.updatedAt)
      && m["state"] == Num(StateCode(t.state)) && m["reply_to"] == Str(t.replyTo)
      && m["executor_id"] == Str(t.executorId) && m["container_handle"] == Str(t.containerHandle)
      && m["result"] == Str(t.result) && m["failed"] == Bool(t.failed) && m["failure_reason"] == Str(t.failureReason)
  {
    EncodesWork(t);
    EncodesNeeds(t);
    EncodesProgress(t);
    hide EncodeActions;
  }

  // ---------- What does not come from Encode ----------

  /** Null, and an object without members, parse as a task with nothing in it. */
  lemma NothingParses()
    ensures Decode(Obj(map[])) == Decode(Null) ==
              Some(Task("", None, "", 0, 0, 0, LogConfig("", "", None), 0, 0, Invalid, "", "", "", "", false, ""))
  {
  }

  /** Only the members of the struct are looked at. */
  lemma SameMembers(m: map<string, Json>, n: map<string, Json>)
    requires forall k :: k in MEMBERS ==> Member(m, k) == Member(n, k)
    ensures Decode(Obj(m)) == Decode(Obj(n))
  {
    hide DecodeString, DecodeInt, DecodeBool, DecodeSlice, DecodeLog, StateFromCode;
  }

  /** A missing member is one that is null, and a member of another name is ignored. */
  lemma MembersByName(m: map<string, Json>, key: string, value: Json)
    ensures key !in m ==> Decode(Obj(m[key := Null])) == Decode(Obj(m))
    ensures key !in MEMBERS ==> Decode(Obj(m[key := value])) == Decode(Obj(m))
  {
    hide Decode;
    if key !in m {
      SameMembers(m[key := Null], m);
    }
    if key !in MEMBERS {
      SameMembers(m[key := value], m);
    }
  }

  predicate IsStr(j: Json) {
    j.Null? || j.Str?
  }

  predicate IsNum(j: Json) {
    j.Null? || j.Num?
  }

  lemma {:induction false} AllParse<T>(items: seq<Json>, decode: Json -> Option<T>)
    ensures All(items, decode).Some? <==> forall i :: 0 <= i < |items| ==> decode(items[i]).Some?
    decreases |items|
  {
    if items != [] {
      AllParse(items[..|items| - 1], decode);
    }
  }

  /** A list of variables is null or an array, of nulls and of arrays of strings. */
  lemma EnvParses(j: Json)
    ensures DecodeSlice(j, DecodeVariable).Some? <==>
              j.Null? || (j.Arr? && forall i :: 0 <= i < |j.items| ==>
                            j.items[i].Null?
                            || (j.items[i].Arr? && forall k :: 0 <= k < |j.items[i].items| ==> IsStr(j.items[i].items[k])))
  {
    if j.Arr? {
      AllParse(j.items, DecodeVariable);
      forall i | 0 <= i < |j.items|
        ensures DecodeVariable(j.items[i]).Some? <==>
                  j.items[i].Null?
                  || (j.items[i].Arr? && forall k :: 0 <= k < |j.items[i].items| ==> IsStr(j.items[i].items[k]))
      {
        if j.items[i].Arr? {
          AllParse(j.items[i].items, DecodeString);
        }
      }
    }
  }

  /** An action parses exactly if it has one of the four tags and arguments of its types. */
  lemma ActionParses(j: Json)
    ensures DecodeAction(j).Some? <==>
              && j.Obj? && Member(j.fields, "args").Obj?
              && var m := Member(j.fields, "args").fields;
                 match Member(j.fields, "action")
                 case Str(name) =>
                   || (name == "download" && IsStr(Member(m, "from")) && IsStr(Member(m, "to"))
                       && (Member(m, "extract").Null? || Member(m, "extract").Bool?))
                   || (name == "run" && IsStr(Member(m, "script")) && IsNum(Member(m, "timeout"))
                       && DecodeSlice(Member(m, "env"), DecodeVariable).Some?)
                   || (name == "upload" && IsStr(Member(m, "to")) && IsStr(Member(m, "from")))
                   || (name == "fetch_result" && IsStr(Member(m, "file")))
                 case _ => false
  {
    hide DecodeSlice;
  }

  lemma LogParses(j: Json)
    ensures DecodeLog(j).Some? <==>
              j.Null? || (j.Obj? && IsStr(Member(j.fields, "guid")) && IsStr(Member(j.fields, "source_name"))
                          && IsNum(Member(j.fields, "index")))
  {
  }

  /** A value parses as a task exactly if it is null, or an object whose members, where they are
      there, have the types of the struct's fields. */
  lemma TaskParses(j: Json)
    ensures Decode(j).Some? <==>
              j.Null? ||
              (&& j.Obj?
               && (forall k ::
                     k in {"guid", "stack", "reply_to", "executor_id", "container_handle", "result", "failure_reason"} ==>
                       IsStr(Member(j.fields, k)))
               && (forall k :: k in {"file_descriptors", "memory_mb", "disk_mb", "created_at", "updated_at", "state"} ==>
                     IsNum(Member(j.fields, k)))
               && (Member(j.fields, "failed").Null? || Member(j.fields, "failed").Bool?)
               && DecodeLog(Member(j.fields, "log")).Some?
               && match Member(j.fields, "actions")
                  case Null => true
                  case Arr(items) => forall i :: 0 <= i < |items| ==> DecodeAction(items[i]).Some?
                  case _ => false)
  {
    NothingParses();
    hide DecodeLog, DecodeAction, StateFromCode;
    if j.Obj? && Member(j.fields, "actions").Arr? {
      AllParse(Member(j.fields, "actions").items, DecodeAction);
    }
  }

  // ---------- Re-encoding ----------

  lemma {:induction false} AllDecoded<T>(items: seq<Json>, decode: Json -> Option<T>, i: nat)
    requires All(items, decode).Some? && i < |All(items, decode).value|
    ensures |items| == |All(items, decode).value| && decode(items[i]) == Some(All(items, decode).value[i])
    decreases |items|
  {
    var p := items[..|items| - 1];
    AllLength(items, decode);
    AllLength(p, decode);
    if i < |p| {
      AllDecoded(p, decode, i);
    }
  }

  lemma {:induction false} AllLength<T>(items: seq<Json>, decode: Json -> Option<T>)
    requires All(items, decode).Some?
    ensures |items| == |All(items, decode).value|
    decreases |items|
  {
    if items != [] { AllLength(items[..|items| - 1], decode); }
  }

  /** Whatever was parsed can be serialised: no action of another type comes out of decoding. */
  lemma DecodedIsEncodable(j: Json)
    requires Decode(j).Some?
    ensures Encodable(Decode(j).value)
  {
    var actions := Member(DecodeObject(j).value, "actions");
    var t := Decode(j).value;
    if t.actions.Some? {
      forall i | 0 <= i < |t.actions.value| ensures t.actions.value[i] != Unsupported {
        AllDecoded(actions.items, DecodeAction, i);
      }
    }
  }

  /** Re-encoding what was decoded is a fixpoint, and it reproduces the stored value exactly
      when that value is the encoding of some task. This decides whether converge's
      compare-and-swap on a re-serialised snapshot can match. */
  lemma ReencodingFixpoint(j: Json)
    requires Decode(j).Some?
    ensures Encodable(Decode(j).value)
    ensures Decode(Encode(Decode(j).value)) == Decode(j)
    ensures Encode(Decode(j).value) == j <==> exists t :: Encodable(t) && Encode(t) == j
  {
    DecodedIsEncodable(j);
    DecodeInvertsEncode(Decode(j).value);
    forall t | Encodable(t) && Encode(t) == j ensures Decode(j) == Some(t) {
      DecodeInvertsEncode(t);
    }
  }
}
