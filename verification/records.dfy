/**
  The persisted entity of the facade, its stored form, and the outcomes of
  fallible operations.
 */
module Records {

  /**
    The preload status of a domain. The facade only compares statuses for
    equality; the members listed are the states the pipeline uses.
   */
  datatype PreloadStatus =
    | StatusUnknown
    | StatusPending
    | StatusPreloaded
    | StatusRejected
    | StatusRemoved

  /**
    One domain's state. `extra` stands for the auxiliary fields (timestamps,
    messages) that the facade carries through without interpreting.
   */
  datatype DomainState = DomainState(name: string, status: PreloadStatus, extra: string)

  /** What the store keeps under a key: every field of a DomainState except its name. */
  datatype Entity = Entity(status: PreloadStatus, extra: string)

  /** The errors the facade can see. */
  datatype Error =
    | NoSuchEntity          // a lookup of a key that holds no entity
    | EmptyAddr             // a local backend that was never given an address
    | Fault(reason: string) // anything the client library or the network reports

  datatype Option<T> = None | Some(value: T)

  datatype Result<T> = Success(value: T) | Failure(error: Error)

  /** The value written under the key `s.name`. */
  function ToEntity(s: DomainState): Entity
  {
    Entity(s.status, s.extra)
  }

  /** The record read back from an entity stored under `key`: its name is the key. */
  function FromEntity(key: string, e: Entity): DomainState
  {
    DomainState(key, e.status, e.extra)
  }

  /** Storing a record and reading it back under its own name gives the record. */
  lemma EntityRoundTrip(s: DomainState, key: string, e: Entity)
    ensures FromEntity(s.name, ToEntity(s)) == s
    ensures ToEntity(FromEntity(key, e)) == e
    ensures FromEntity(key, e).name == key
  {
  }

  /** The names of a sequence of records, in order. */
  function Names(ds: seq<DomainState>): (ns: seq<string>)
    ensures |ns| == |ds|
    ensures forall i :: 0 <= i < |ds| ==> ns[i] == ds[i].name
  {
    seq(|ds|, i requires 0 <= i < |ds| => ds[i].name)
  }
}
