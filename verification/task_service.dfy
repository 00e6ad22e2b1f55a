/** The REST client (src/services/taskService.ts): the bearer header, the
    query string of the list call, and the six calls with their failure
    normalisation. The HTTP exchange itself is a parameter: each call receives
    what the transport delivered, or that it failed. */
module TaskService {
  import opened Wrappers
  import opened Types

  const BearerPrefix := "Bearer "
  const TasksBase := "/tasks"

  datatype Verb = Get | Post | Put | Delete

  datatype Body =
    | NoBody
    | CreateBody(create: CreateTaskRequest)
    | UpdateBody(update: UpdateTaskRequest)
    | CompletionBody(completion: CompletionRequest)

  /** One request: verb, path under the API base URL, the Authorization header value
      and the body. */
  datatype Request = Request(verb: Verb, path: string, authorization: string, body: Body)

  /** What the transport produced: the reply body, or an error axios threw. */
  datatype Transport<T> = Delivered(body: T) | TransportError

  /** A request together with what the service function returned for it. */
  datatype Call<T> = Call(request: Request, response: T)

  // ---------------------------------------------------------------------------
  // Authorization header

  /** The header sent with every call, built from the stored token (`null` is
      `None`). An empty stored token is falsy and sends the empty header. */
  function Authorization(token: Option<string>): (header: string)
    ensures header != "" <==> Truthy(token)
    ensures Truthy(token) ==> header == BearerPrefix + token.value
    ensures Truthy(token) ==> header[|BearerPrefix|..] == token.value
  {
    if Truthy(token) then BearerPrefix + token.value else ""
  }

  // ---------------------------------------------------------------------------
  // Query parameters of the list call

  /** The four keys `getTasks` may append, declared in emission order. */
  datatype Key = IsCompletedKey | IsActiveKey | AssignedToKey | SortKey

  function KeyName(k: Key): string {
    match k
    case IsCompletedKey => "isCompleted"
    case IsActiveKey => "isActive"
    case AssignedToKey => "assignedTo"
    case SortKey => "sort"
  }

  /** Position of a key in the emission order. */
  function KeyRank(k: Key): nat {
    match k
    case IsCompletedKey => 0
    case IsActiveKey => 1
    case AssignedToKey => 2
    case SortKey => 3
  }

  datatype Param = Param(key: Key, value: string)

  /** The parameters `getTasks` appends, in order: every key at most once,
      in the fixed order isCompleted, isActive, assignedTo, sort. The two
      flags are sent whenever they are defined (so `false` is sent as
      "false"); the two strings only when non-empty; dates, page and limit
      never. */
  function QueryParams(f: TaskFilter): (ps: seq<Param>)
    ensures |ps| <= 4
    ensures forall i, j :: 0 <= i < j < |ps| ==> KeyRank(ps[i].key) < KeyRank(ps[j].key)
    ensures ps == [] <==> f.isCompleted.None? && f.isActive.None? && !Truthy(f.assignedTo) && !Truthy(f.sort)
  {
    var completed := if f.isCompleted.Some? then [Param(IsCompletedKey, BoolText(f.isCompleted.value))] else [];
    var active := if f.isActive.Some? then [Param(IsActiveKey, BoolText(f.isActive.value))] else [];
    var assignee := if Truthy(f.assignedTo) then [Param(AssignedToKey, f.assignedTo.value)] else [];
    var sort := if Truthy(f.sort) then [Param(SortKey, f.sort.value)] else [];
    completed + active + assignee + sort
  }

  /** Which pairs are sent: each flag exactly when it is defined, with its
      `String` text, and each string exactly when it is non-empty. */
  lemma QueryParamsContents(f: TaskFilter)
    ensures forall v :: Param(IsCompletedKey, v) in QueryParams(f) <==>
      f.isCompleted.Some? && v == BoolText(f.isCompleted.value)
    ensures forall v :: Param(IsActiveKey, v) in QueryParams(f) <==>
      f.isActive.Some? && v == BoolText(f.isActive.value)
    ensures forall v :: Param(AssignedToKey, v) in QueryParams(f) <==>
      Truthy(f.assignedTo) && v == f.assignedTo.value
    ensures forall v :: Param(SortKey, v) in QueryParams(f) <==>
      Truthy(f.sort) && v == f.sort.value
  {
  }

  /** Start date, end date, page and limit have no influence on the query. */
  lemma QueryIgnoresDatesAndPaging(f: TaskFilter, g: TaskFilter)
    requires f.isCompleted == g.isCompleted && f.isActive == g.isActive
    requires f.assignedTo == g.assignedTo && f.sort == g.sort
    ensures QueryParams(f) == QueryParams(g)
  {
  }

  // ---------------------------------------------------------------------------
  // Query string: `URLSearchParams.toString()` without percent-encoding

  function PairText(p: Param): string {
    KeyName(p.key) + "=" + p.value
  }

  /** The pairs as `key=value`, separated by `&`. */
  function QueryString(ps: seq<Param>): (s: string)
    ensures s == "" <==> ps == []
  {
    if |ps| == 0 then ""
    else if |ps| == 1 then PairText(ps[0])
    else PairText(ps[0]) + "&" + QueryString(ps[1..])
  }

  /** The index of the first `c` in `s`. */
  function FirstIndex(s: string, c: char): (i: nat)
    requires c in s
    ensures i < |s| && s[i] == c
    ensures forall k :: 0 <= k < i ==> s[k] != c
  {
    if s[0] == c then 0 else 1 + FirstIndex(s[1..], c)
  }

  /** `s` cut at every `c`. */
  function SplitOn(s: string, c: char): (parts: seq<string>)
    ensures |parts| >= 1
    decreases |s|
  {
    if c in s then
      var i := FirstIndex(s, c);
      [s[..i]] + SplitOn(s[i + 1..], c)
    else
      [s]
  }

  /** `key=value`, cut at the first `=`. */
  function ParsePair(s: string): (string, string) {
    if '=' in s then
      var i := FirstIndex(s, '=');
      (s[..i], s[i + 1..])
    else
      (s, "")
  }

  function ParsePairs(parts: seq<string>): (pairs: seq<(string, string)>)
    ensures |pairs| == |parts|
  {
    if parts == [] then [] else [ParsePair(parts[0])] + ParsePairs(parts[1..])
  }

  /** Reads a query string back into its textual pairs. */
  function ParseQuery(s: string): seq<(string, string)> {
    if s == "" then [] else ParsePairs(SplitOn(s, '&'))
  }

  /** The textual pairs a parameter list stands for. */
  function Texts(ps: seq<Param>): (pairs: seq<(string, string)>)
    ensures |pairs| == |ps|
    ensures forall i :: 0 <= i < |ps| ==> pairs[i] == (KeyName(ps[i].key), ps[i].value)
  {
    if ps == [] then [] else [(KeyName(ps[0].key), ps[0].value)] + Texts(ps[1..])
  }

  /** A value survives the unescaped encoding when it has no `&`. */
  predicate Unambiguous(p: Param) {
    '&' !in p.value
  }

  lemma {:induction false} FirstIndexAfter(a: string, c: char, b: string)
    requires c !in a
    ensures c in a + [c] + b
    ensures FirstIndex(a + [c] + b, c) == |a|
    decreases |a|
  {
    var s := a + [c] + b;
    assert s[|a|] == c;
    if a != [] {
      assert s[1..] == a[1..] + [c] + b;
      FirstIndexAfter(a[1..], c, b);
    }
  }

  lemma {:induction false} SplitOnFirst(a: string, c: char, b: string)
    requires c !in a
    ensures SplitOn(a + [c] + b, c) == [a] + SplitOn(b, c)
  {
    var s := a + [c] + b;
    FirstIndexAfter(a, c, b);
    assert s[..|a|] == a;
    assert s[|a| + 1..] == b;
  }

  lemma KeyNameClean(k: Key)
    ensures '=' !in KeyName(k) && '&' !in KeyName(k)
  {
  }

  lemma ParsePairText(p: Param)
    ensures ParsePair(PairText(p)) == (KeyName(p.key), p.value)
  {
    KeyNameClean(p.key);
    FirstIndexAfter(KeyName(p.key), '=', p.value);
    var s := PairText(p);
    assert s == KeyName(p.key) + ['='] + p.value;
    assert s[..|KeyName(p.key)|] == KeyName(p.key);
    assert s[|KeyName(p.key)| + 1..] == p.value;
  }

  /** Parsing the emitted query string gives back exactly the emitted pairs,
      in order. */
  lemma {:induction false} QueryStringRoundTrip(ps: seq<Param>)
    requires forall i :: 0 <= i < |ps| ==> Unambiguous(ps[i])
    ensures ParseQuery(QueryString(ps)) == Texts(ps)
  {
    if |ps| == 0 {
    } else {
      var head := PairText(ps[0]);
      assert '&' !in head by {
        KeyNameClean(ps[0].key);
        assert head == KeyName(ps[0].key) + "=" + ps[0].value;
      }
      ParsePairText(ps[0]);
      if |ps| == 1 {
        assert SplitOn(head, '&') == [head];
      } else {
        var rest := QueryString(ps[1..]);
        assert QueryString(ps) == head + ['&'] + rest;
        SplitOnFirst(head, '&', rest);
        QueryStringRoundTrip(ps[1..]);
        assert ParsePairs([head] + SplitOn(rest, '&'))[1..] == ParsePairs(SplitOn(rest, '&'));
      }
    }
  }

  // ---------------------------------------------------------------------------
  // The list URL

  /** The path requested by `getTasks`: `/tasks`, followed by `?` and the query
      string only when there is a filter and it yields a parameter. */
  function TasksPath(filters: Option<TaskFilter>): (path: string)
    ensures filters.None? ==> path == TasksBase
    ensures filters.Some? && QueryParams(filters.value) == [] ==> path == TasksBase
    ensures filters.Some? && QueryParams(filters.value) != [] ==>
      path == TasksBase + "?" + QueryString(QueryParams(filters.value))
  {
    if filters.Some? && QueryString(QueryParams(filters.value)) != "" then
      TasksBase + "?" + QueryString(QueryParams(filters.value))
    else
      TasksBase
  }

  /** The query part of the list URL decodes to exactly the parameters of the
      filter, provided the assignee id and sort key contain no `&`. */
  lemma TasksPathDecodes(f: TaskFilter)
    requires f.assignedTo.Some? ==> '&' !in f.assignedTo.value
    requires f.sort.Some? ==> '&' !in f.sort.value
    ensures QueryParams(f) == [] ==> TasksPath(Some(f)) == TasksBase
    ensures QueryParams(f) != [] ==>
      exists q :: TasksPath(Some(f)) == TasksBase + "?" + q && ParseQuery(q) == Texts(QueryParams(f))
  {
    var ps := QueryParams(f);
    QueryParamsContents(f);
    forall i | 0 <= i < |ps|
      ensures Unambiguous(ps[i])
    {
      assert ps[i] in ps;
    }
    QueryStringRoundTrip(ps);
  }

  // ---------------------------------------------------------------------------
  // The six calls

  /** The reply body, or the fallback the catch branch returns. */
  function Settle<T>(reply: Transport<T>, fallback: T): (r: T)
    ensures reply.Delivered? ==> r == reply.body
    ensures reply.TransportError? ==> r == fallback
  {
    match reply
    case Delivered(body) => body
    case TransportError => fallback
  }

  const FailedTasks := TasksResponse(false, 0, [])
  const FailedTask := TaskResponse(false, None, None)
  const FailedDelete := DeleteResponse(false, Some("Failed to delete task"))

  function TaskPath(id: string): string {
    TasksBase + "/" + id
  }

  function GetTasks(token: Option<string>, filters: Option<TaskFilter>, reply: Transport<TasksResponse>): (c: Call<TasksResponse>)
    ensures c.request == Request(Get, TasksPath(filters), Authorization(token), NoBody)
    ensures reply.Delivered? ==> c.response == reply.body
    ensures reply.TransportError? ==> c.response == TasksResponse(false, 0, [])
  {
    Call(Request(Get, TasksPath(filters), Authorization(token), NoBody), Settle(reply, FailedTasks))
  }

  function GetTask(token: Option<string>, id: string, reply: Transport<TaskResponse>): (c: Call<TaskResponse>)
    ensures c.request == Request(Get, "/tasks/" + id, Authorization(token), NoBody)
    ensures reply.Delivered? ==> c.response == reply.body
    ensures reply.TransportError? ==> !c.response.success && c.response.message.None? && c.response.data.None?
  {
    Call(Request(Get, TaskPath(id), Authorization(token), NoBody), Settle(reply, FailedTask))
  }

  function CreateTask(token: Option<string>, payload: CreateTaskRequest, reply: Transport<TaskResponse>): (c: Call<TaskResponse>)
    ensures c.request == Request(Post, "/tasks", Authorization(token), CreateBody(payload))
    ensures reply.Delivered? ==> c.response == reply.body
    ensures reply.TransportError? ==> !c.response.success && c.response.message.None? && c.response.data.None?
  {
    Call(Request(Post, TasksBase, Authorization(token), CreateBody(payload)), Settle(reply, FailedTask))
  }

  function UpdateTask(token: Option<string>, id: string, payload: UpdateTaskRequest, reply: Transport<TaskResponse>): (c: Call<TaskResponse>)
    ensures c.request == Request(Put, "/tasks/" + id, Authorization(token), UpdateBody(payload))
    ensures reply.Delivered? ==> c.response == reply.body
    ensures reply.TransportError? ==> !c.response.success && c.response.message.None? && c.response.data.None?
  {
    Call(Request(Put, TaskPath(id), Authorization(token), UpdateBody(payload)), Settle(reply, FailedTask))
  }

  function DeleteTask(token: Option<string>, id: string, reply: Transport<DeleteResponse>): (c: Call<DeleteResponse>)
    ensures c.request == Request(Delete, "/tasks/" + id, Authorization(token), NoBody)
    ensures reply.Delivered? ==> c.response == reply.body
    ensures reply.TransportError? ==> c.response == DeleteResponse(false, Some("Failed to delete task"))
  {
    Call(Request(Delete, TaskPath(id), Authorization(token), NoBody), Settle(reply, FailedDelete))
  }

  function UpdateTaskCompletion(token: Option<string>, id: string, data: CompletionRequest, reply: Transport<TaskResponse>): (c: Call<TaskResponse>)
    ensures c.request == Request(Put, "/tasks/" + id + "/completion", Authorization(token), CompletionBody(data))
    ensures reply.Delivered? ==> c.response == reply.body
    ensures reply.TransportError? ==> !c.response.success && c.response.message.None? && c.response.data.None?
  {
    Call(Request(Put, TaskPath(id) + "/completion", Authorization(token), CompletionBody(data)), Settle(reply, FailedTask))
  }
}
