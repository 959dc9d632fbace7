/**
 * The ACME bookkeeping store: pending HTTP-01 orders keyed by domain
 * identifier, and issued certificates keyed by host.
 */
module AcmeStorage {
  import opened Wrappers

  /**
   * The map that a sequence of inserts builds from an empty map, each insert
   * overwriting whatever the key held before.
   */
  ghost function Inserted<V>(log: seq<(string, V)>): map<string, V>
    decreases |log|
  {
    if log == [] then map[]
    else Inserted(log[..|log| - 1])[log[|log| - 1].0 := log[|log| - 1].1]
  }

  /** A key is present exactly when some insert used it. */
  lemma {:induction false} InsertedKeys<V>(log: seq<(string, V)>, k: string)
    ensures k in Inserted(log) <==> exists i :: 0 <= i < |log| && log[i].0 == k
    decreases |log|
  {
    if log != [] {
      var front := log[..|log| - 1];
      InsertedKeys(front, k);
      if k in Inserted(front) {
        var i :| 0 <= i < |front| && front[i].0 == k;
        assert log[i].0 == k;
      }
      if exists i :: 0 <= i < |log| && log[i].0 == k {
        var i :| 0 <= i < |log| && log[i].0 == k;
        if i < |front| {
          assert front[i].0 == k;
        }
      }
    }
  }

  /** The value held for a key is the one its last insert wrote: the last writer wins. */
  lemma {:induction false} InsertedLastWrite<V>(log: seq<(string, V)>, i: nat)
    requires i < |log|
    requires forall j :: i < j < |log| ==> log[j].0 != log[i].0
    ensures log[i].0 in Inserted(log) && Inserted(log)[log[i].0] == log[i].1
    decreases |log|
  {
    if i < |log| - 1 {
      var front := log[..|log| - 1];
      assert front[i] == log[i];
      InsertedLastWrite(front, i);
    }
  }

  /** Entry `i` of the log is the last insert that used key `k`. */
  ghost predicate LastWriteOf<V>(log: seq<(string, V)>, k: string, i: int) {
    0 <= i < |log| && log[i].0 == k && forall j :: i < j < |log| ==> log[j].0 != k
  }

  /** A present key holds what its last insert wrote. */
  lemma {:induction false} InsertedWritten<V>(log: seq<(string, V)>, k: string)
    requires k in Inserted(log)
    ensures exists i :: LastWriteOf(log, k, i) && log[i].1 == Inserted(log)[k]
    decreases |log|
  {
    var n := |log| - 1;
    var front := log[..n];
    if log[n].0 == k {
      assert LastWriteOf(log, k, n);
    } else {
      assert Inserted(log)[k] == Inserted(front)[k];
      InsertedWritten(front, k);
      var i :| LastWriteOf(front, k, i) && front[i].1 == Inserted(front)[k];
      assert log[i] == front[i];
      assert LastWriteOf(log, k, i);
    }
  }

  /** Rust's `Storage`, generic in the `instant_acme::KeyAuthorization` it records. */
  class Storage<KeyAuthorization> {
    /** Pending orders: identifier to (token, url, key authorization). */
    var orders: map<string, (string, string, KeyAuthorization)>
    /** Issued certificates: host to certificate text. */
    var certificates: map<string, string>

    /** Every `add_order` call so far, oldest first. */
    ghost var orderLog: seq<(string, (string, string, KeyAuthorization))>
    /** Every `add_certificate` call so far, oldest first. */
    ghost var certificateLog: seq<(string, string)>

    /** Each map is what its insert history builds. */
    ghost predicate Valid()
      reads this
    {
      orders == Inserted(orderLog) && certificates == Inserted(certificateLog)
    }

    constructor ()
      ensures Valid()
      ensures orders == map[] && certificates == map[]
      ensures orderLog == [] && certificateLog == []
    {
      orders := map[];
      certificates := map[];
      orderLog := [];
      certificateLog := [];
    }

    /** `impl Default for Storage`: the same as `Storage::new()`. */
    static method Default() returns (s: Storage<KeyAuthorization>)
      ensures fresh(s) && s.Valid()
      ensures s.orders == map[] && s.certificates == map[]
      ensures s.orderLog == [] && s.certificateLog == []
    {
      s := new Storage();
    }

    method AddOrder(identifier: string, token: string, url: string, keyAuth: KeyAuthorization)
      requires Valid()
      modifies this
      ensures Valid()
      ensures orders == old(orders)[identifier := (token, url, keyAuth)]
      ensures certificates == old(certificates)
      ensures orderLog == old(orderLog) + [(identifier, (token, url, keyAuth))]
      ensures certificateLog == old(certificateLog)
      ensures GetOrder(identifier) == Some((token, url, keyAuth))
      ensures forall k :: k != identifier ==> GetOrder(k) == old(GetOrder(k))
    {
      orders := orders[identifier := (token, url, keyAuth)];
      orderLog := orderLog + [(identifier, (token, url, keyAuth))];
      assert orderLog[..|orderLog| - 1] == old(orderLog);
    }

    method AddCertificate(host: string, certificate: string)
      requires Valid()
      modifies this
      ensures Valid()
      ensures certificates == old(certificates)[host := certificate]
      ensures orders == old(orders)
      ensures certificateLog == old(certificateLog) + [(host, certificate)]
      ensures orderLog == old(orderLog)
      ensures GetCertificate(host) == Some(certificate)
      ensures forall h :: h != host ==> GetCertificate(h) == old(GetCertificate(h))
    {
      certificates := certificates[host := certificate];
      certificateLog := certificateLog + [(host, certificate)];
      assert certificateLog[..|certificateLog| - 1] == old(certificateLog);
    }

    function GetCertificate(host: string): (r: Option<string>)
      reads this
      ensures r.Some? <==> host in certificates
      ensures r.Some? ==> r.value == certificates[host]
    {
      if host in certificates then Some(certificates[host]) else None
    }

    /** The whole pending-order map; looking a key up in it agrees with `GetOrder`. */
    function GetOrders(): (m: map<string, (string, string, KeyAuthorization)>)
      reads this
      ensures forall k :: (k in m <==> GetOrder(k).Some?) && (k in m ==> GetOrder(k) == Some(m[k]))
    {
      orders
    }

    function GetOrder(order: string): (r: Option<(string, string, KeyAuthorization)>)
      reads this
      ensures r.Some? <==> order in orders
      ensures r.Some? ==> r.value == orders[order]
    {
      if order in orders then Some(orders[order]) else None
    }

    /** A host that was never passed to `AddCertificate` has no certificate. */
    lemma CertificateNeverAdded(host: string)
      requires Valid()
      requires forall i :: 0 <= i < |certificateLog| ==> certificateLog[i].0 != host
      ensures GetCertificate(host) == None
    {
      InsertedKeys(certificateLog, host);
    }

    /** A host has a certificate only if some `AddCertificate` call wrote it, and no later call named the host. */
    lemma CertificateWasAdded(host: string)
      requires Valid()
      requires GetCertificate(host).Some?
      ensures exists i :: LastWriteOf(certificateLog, host, i) && certificateLog[i].1 == GetCertificate(host).value
    {
      InsertedWritten(certificateLog, host);
    }

    /** The certificate of a host is the one its last `AddCertificate` wrote. */
    lemma CertificateLastWriteWins(i: nat)
      requires Valid()
      requires i < |certificateLog|
      requires forall j :: i < j < |certificateLog| ==> certificateLog[j].0 != certificateLog[i].0
      ensures GetCertificate(certificateLog[i].0) == Some(certificateLog[i].1)
    {
      InsertedLastWrite(certificateLog, i);
    }

    /** An identifier that was never passed to `AddOrder` has no pending order. */
    lemma OrderNeverAdded(identifier: string)
      requires Valid()
      requires forall i :: 0 <= i < |orderLog| ==> orderLog[i].0 != identifier
      ensures GetOrder(identifier) == None
    {
      InsertedKeys(orderLog, identifier);
    }

    /** The order of an identifier is the triple its last `AddOrder` wrote, replaced wholesale. */
    lemma OrderLastWriteWins(i: nat)
      requires Valid()
      requires i < |orderLog|
      requires forall j :: i < j < |orderLog| ==> orderLog[j].0 != orderLog[i].0
      ensures GetOrder(orderLog[i].0) == Some(orderLog[i].1)
    {
      InsertedLastWrite(orderLog, i);
    }
  }
}
