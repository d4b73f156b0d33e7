/**
 * Descriptors that stand for the Python objects the modelled code inspects or stores
 * without looking inside them.
 */
module PyValues {

  /** `inspect.Parameter.kind`. */
  datatype ParamKind =
    | PositionalOnly
    | VarPositional
    | PositionalOrKeyword
    | KeywordOnly
    | VarKeyword

  /** One entry of `inspect.signature(f).parameters`. */
  datatype Param = Param(name: string, kind: ParamKind)

  /**
   * What `inspect` reports about a callable: `inspect.isfunction`,
   * `inspect.iscoroutinefunction` and the ordered parameter list of its signature.
   */
  datatype CallableInfo = CallableInfo(isFunction: bool, isCoroutine: bool, params: seq<Param>)

  /** An argument value: something callable, or any other object (opaque, told apart by a tag). */
  datatype Value = Fn(info: CallableInfo) | Obj(tag: nat)

  /** The keyword arguments a library object is constructed from (`**options`). */
  type Kwargs = map<string, string>

  /** An asyncio task handle; two handles are the same task iff their serials agree. */
  datatype Task = Task(serial: nat)

  /** A resource snapshot returned by a collector; its contents are not modelled. */
  datatype Snapshot = Snapshot(serial: nat)

  /** The elements of a sequence as a set (the keys of `{k: ... for k in s}`). */
  function Elements<T>(s: seq<T>): set<T> {
    set x | x in s
  }

  /** No element occurs twice. */
  predicate NoDuplicates<T(==)>(s: seq<T>) {
    forall i, j :: 0 <= i < j < |s| ==> s[i] != s[j]
  }
}
