/** The check of an allocation's stored credentials, and that every consistent allocation passes it. */
module Credentials {
  import opened Domain
  import opened Intent

  datatype Row = Row(version: int, state: CredentialState, ciphertext: seq<bv8>, nonce: seq<bv8>)

  /** Key material is there exactly while the credential can be used. */
  predicate RowOk(row: Row) {
    row.version >= 1 &&
    if row.state == Destroyed then |row.ciphertext| == 0 && |row.nonce| == 0
    else |row.ciphertext| > 0 && |row.nonce| > 0
  }

  ghost predicate AtMostOne(rows: seq<Row>, state: CredentialState) {
    forall i, j :: 0 <= i < j < |rows| ==> !(rows[i].state == state && rows[j].state == state)
  }

  method ValidateCredentialSet(rows: seq<Row>) returns (ok: bool)
    ensures ok <==> (forall i :: 0 <= i < |rows| ==> RowOk(rows[i])) &&
                    AtMostOne(rows, PendingKey) && AtMostOne(rows, ActiveKey)
  {
    var pending, active := 0, 0;
    for i := 0 to |rows|
      invariant pending >= 0 && active >= 0
      invariant forall k :: 0 <= k < i ==> RowOk(rows[k])
      invariant pending == 0 <==> forall k :: 0 <= k < i ==> rows[k].state != PendingKey
      invariant active == 0 <==> forall k :: 0 <= k < i ==> rows[k].state != ActiveKey
      invariant pending <= 1 <==> AtMostOne(rows[..i], PendingKey)
      invariant active <= 1 <==> AtMostOne(rows[..i], ActiveKey)
    {
      var row := rows[i];
      assert rows[..i + 1] == rows[..i] + [row];
      if row.version < 1 {
        return false;
      }
      if row.state == Destroyed {
        if |row.ciphertext| != 0 || |row.nonce| != 0 {
          return false;
        }
      } else if |row.ciphertext| == 0 || |row.nonce| == 0 {
        return false;
      }
      match row.state {
        case PendingKey => pending := pending + 1;
        case ActiveKey => active := active + 1;
        case _ =>
      }
    }
    assert rows[..|rows|] == rows;
    ok := pending <= 1 && active <= 1;
  }

  /** The rows of an allocation, in whatever order they are read. */
  ghost predicate RowsOf(a: Allocation, rows: seq<Row>) {
    && (forall i, j :: 0 <= i < j < |rows| ==> rows[i].version != rows[j].version)
    && (forall i :: 0 <= i < |rows| ==>
          var row := rows[i];
          row.version in a.credentials && row.state == a.credentials[row.version].state &&
          (|row.ciphertext| > 0 <==> a.credentials[row.version].key.Some?) &&
          (|row.nonce| > 0 <==> a.credentials[row.version].key.Some?))
  }

  /** In a reachable allocation at most one credential is pending and at most one active, a pending one has the
      desired version and sits right above the active one, and the desired version always has key material. */
  lemma CredentialsAreValid(a: Allocation, rows: seq<Row>)
    requires Inv(a) && RowsOf(a, rows)
    ensures forall i :: 0 <= i < |rows| ==> RowOk(rows[i])
    ensures AtMostOne(rows, PendingKey) && AtMostOne(rows, ActiveKey)
    ensures forall v :: v in a.credentials && a.credentials[v].state == PendingKey ==>
              v == a.desiredVersion && (v > 1 ==> a.credentials[v - 1].state == ActiveKey)
    ensures !a.inbound.released ==> a.desiredVersion in a.credentials && a.credentials[a.desiredVersion].key.Some?
  {
    hide OpsOk, IntentOk, SyncOk;
    forall i, j | 0 <= i < j < |rows|
      ensures rows[i].state == rows[j].state ==> rows[i].state !in {PendingKey, ActiveKey}
    {
      var v, w := rows[i].version, rows[j].version;
      assert v in a.credentials && w in a.credentials && v != w;
    }
  }
}
