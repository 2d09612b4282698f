/**
 * The credential record (`coreauth.Auth`) as far as the file synthesizer
 * fills it in. The record is a heap object: the synthesizer builds it and
 * later changes a primary credential in place.
 */
module AuthModel {
  import opened Json

  datatype Status = Active | Disabled | OtherStatus(name: string)

  /** A `time.Time`: only ever copied, never inspected. */
  datatype Time = Time(stamp: int)

  /**
   * The runtime slot. Its two handles are built by code this model does not
   * include, so each is recorded by the arguments it was built from.
   */
  datatype Runtime =
    | NoRuntime
      /** `geminicli.NewSharedCredential(primaryID, email, metadata, projects)` */
    | SharedCredential(primaryID: string, email: string, metadata: Metadata, projects: seq<string>)
      /** `geminicli.NewVirtualCredential(projectID, shared)` */
    | VirtualCredential(projectID: string, shared: Runtime)

  /** The value of a credential record at one moment. */
  datatype AuthRecord = AuthRecord(
    id: string,
    provider: string,
    displayLabel: string,
    prefix: string,
    status: Status,
    disabled: bool,
    attributes: map<string, string>,
    proxyURL: string,
    metadata: Metadata,
    createdAt: Time,
    updatedAt: Time,
    runtime: Runtime)

  /** `m[key]` on a `map[string]string`: a missing key reads as "". */
  function Attr(m: map<string, string>, key: string): (v: string)
    ensures v != "" ==> key in m && m[key] == v
  {
    if key in m then m[key] else ""
  }

  class Auth {
    var id: string
    var provider: string
    var displayLabel: string
    var prefix: string
    var status: Status
    var disabled: bool
    var attributes: map<string, string>
    var proxyURL: string
    var metadata: Metadata
    var createdAt: Time
    var updatedAt: Time
    var runtime: Runtime

    function Record(): AuthRecord
      reads this
    {
      AuthRecord(id, provider, displayLabel, prefix, status, disabled, attributes,
                 proxyURL, metadata, createdAt, updatedAt, runtime)
    }

    /** A composite literal `&coreauth.Auth{...}` with the fields of `r`. */
    constructor (r: AuthRecord)
      ensures Record() == r
    {
      id, provider, displayLabel, prefix := r.id, r.provider, r.displayLabel, r.prefix;
      status, disabled, attributes := r.status, r.disabled, r.attributes;
      proxyURL, metadata := r.proxyURL, r.metadata;
      createdAt, updatedAt, runtime := r.createdAt, r.updatedAt, r.runtime;
    }
  }

  /** The records a slice of `*Auth` points to, in order. */
  function Records(auths: seq<Auth>): (rs: seq<AuthRecord>)
    reads auths
    ensures |rs| == |auths|
  {
    if auths == [] then [] else Records(auths[..|auths| - 1]) + [auths[|auths| - 1].Record()]
  }

  lemma RecordsOne(a: Auth)
    ensures Records([a]) == [a.Record()]
  {
    assert [a][..0] == [];
  }

  lemma RecordsSnoc(auths: seq<Auth>, a: Auth)
    ensures Records(auths + [a]) == Records(auths) + [a.Record()]
  {
    assert (auths + [a])[..|auths|] == auths;
  }

  lemma {:induction false} RecordsAppend(xs: seq<Auth>, ys: seq<Auth>)
    ensures Records(xs + ys) == Records(xs) + Records(ys)
    decreases |ys|
  {
    if ys != [] {
      var n := |ys| - 1;
      assert xs + ys == (xs + ys[..n]) + [ys[n]];
      RecordsAppend(xs, ys[..n]);
      RecordsSnoc(xs + ys[..n], ys[n]);
      RecordsSnoc(ys[..n], ys[n]);
      assert ys[..n] + [ys[n]] == ys;
    } else {
      assert xs + ys == xs;
    }
  }
}
