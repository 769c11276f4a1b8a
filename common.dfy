/**
 * Values shared by every part of the model: optional values, parsed JSON,
 * stored chat messages, and Python's list slicing rules.
 */
module Common {

  datatype Option<T> = None | Some(value: T) {
    function GetOr(default: T): T {
      match this
      case Some(v) => v
      case None => default
    }
  }

  /** A parsed JSON value, as the agent sees tool-call arguments after `json.loads`. */
  datatype Json =
    | JNull
    | JBool(b: bool)
    | JInt(i: int)
    | JStr(s: string)
    | JArr(items: seq<Json>)
    | JObj(fields: map<string, Json>)

  /** `dict.get(key, default)` on a JSON object. */
  function Lookup(args: map<string, Json>, key: string, default: Json): Json {
    if key in args then args[key] else default
  }

  /** Python truthiness of a JSON value (`not x` is false exactly for these). */
  predicate Truthy(j: Json) {
    match j
    case JNull => false
    case JBool(b) => b
    case JInt(i) => i != 0
    case JStr(s) => s != []
    case JArr(items) => items != []
    case JObj(fields) => fields != map[]
  }

  /** `len(x)` on a JSON value; `None` where Python's `len` raises. */
  function JsonLen(j: Json): Option<nat> {
    match j
    case JStr(s) => Some(|s|)
    case JArr(items) => Some(|items|)
    case JObj(fields) => Some(|fields|)
    case _ => None
  }

  /**
   * A stored chat message. Every writer in the system sets id, role, content
   * and timestamp; the RLM dialogue track adds a conversation mode and the
   * agent track adds metadata.
   */
  datatype Message = Message(
    id: string,
    role: string,
    content: string,
    timestamp: string,
    mode: Option<string>,
    metadata: Option<map<string, Json>>)

  /** Concatenation regroups freely. */
  lemma AppendAssoc<T>(a: seq<T>, b: seq<T>, c: seq<T>)
    ensures a + b + c == a + (b + c)
  {
  }

  /** Sum of content lengths, the "token" measure used by the toolset. */
  function TotalChars(ms: seq<Message>): (n: nat)
    ensures ms == [] ==> n == 0
  {
    if ms == [] then 0 else TotalChars(ms[..|ms| - 1]) + |ms[|ms| - 1].content|
  }

  lemma {:induction false} TotalCharsAppend(a: seq<Message>, b: seq<Message>)
    ensures TotalChars(a + b) == TotalChars(a) + TotalChars(b)
    decreases |b|
  {
    if b == [] {
      assert a + b == a;
    } else {
      assert (a + b)[..|a + b| - 1] == a + b[..|b| - 1];
      TotalCharsAppend(a, b[..|b| - 1]);
    }
  }

  /** Clamp one Python slice bound into [0, n], counting negative bounds from the end. */
  function SliceBound(i: int, n: nat): (r: nat)
    ensures r <= n
    ensures 0 <= i <= n ==> r == i
  {
    if i < 0 then (if i + n < 0 then 0 else i + n) else if i > n then n else i
  }

  /** Python's `s[i:j]`. */
  function PySlice<T>(s: seq<T>, i: int, j: int): (r: seq<T>)
    ensures |r| <= |s|
    ensures 0 <= i <= j <= |s| ==> r == s[i..j]
    ensures SliceBound(i, |s|) <= SliceBound(j, |s|) ==> r == s[SliceBound(i, |s|)..SliceBound(j, |s|)]
    ensures SliceBound(i, |s|) > SliceBound(j, |s|) ==> r == []
  {
    var lo := SliceBound(i, |s|);
    var hi := SliceBound(j, |s|);
    if lo >= hi then [] else s[lo..hi]
  }

  /** Python's `s[:limit]`. */
  function Take<T>(s: seq<T>, limit: int): (r: seq<T>)
    ensures limit >= 0 ==> |r| <= limit
    ensures |r| <= |s| && r == s[..|r|]
    ensures 0 <= limit <= |s| ==> |r| == limit
  {
    PySlice(s, 0, limit)
  }

  /**
   * Index of the first message whose id is `id`, or -1 when there is none
   * (the linear scans with early exit in the history stores and the matcher).
   */
  function IndexOfId(ms: seq<Message>, id: string): (k: int)
    ensures -1 <= k < |ms|
    ensures k >= 0 ==> ms[k].id == id
  {
    if ms == [] then -1
    else if ms[0].id == id then 0
    else var k := IndexOfId(ms[1..], id); if k < 0 then -1 else k + 1
  }

  /** The index found is the first holder of the id, and -1 means no message holds it. */
  lemma {:induction false} IndexOfIdFirst(ms: seq<Message>, id: string)
    ensures var k := IndexOfId(ms, id);
      && (k >= 0 ==> forall j :: 0 <= j < k ==> ms[j].id != id)
      && (k == -1 <==> forall j :: 0 <= j < |ms| ==> ms[j].id != id)
  {
    if ms != [] && ms[0].id != id {
      IndexOfIdFirst(ms[1..], id);
      var k := IndexOfId(ms, id);
      forall j | 0 <= j < |ms| && (k == -1 || j < k) ensures ms[j].id != id {
        if j > 0 {
          assert ms[j] == ms[1..][j - 1];
        }
      }
    }
  }
}
