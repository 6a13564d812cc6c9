/** The declared cluster and the names its pods get. */
module Names {
  import opened Wrappers
  import opened Text

  datatype ValkeyCluster = ValkeyCluster(name: string, namespace: string, shards: nat, replicas: nat)

  function StatefulSetName(cr: ValkeyCluster, shard: nat): string {
    cr.name + "-shard-" + Itoa(shard)
  }

  function PodName(cr: ValkeyCluster, shard: nat, ordinal: nat): string {
    StatefulSetName(cr, shard) + "-" + Itoa(ordinal)
  }

  function HeadlessServiceName(cr: ValkeyCluster): string {
    cr.name + "-nodes"
  }

  /** The DNS name a pod announces. The shard and ordinal can be read back from it, so distinct pods have
      distinct names. */
  function PodFQDN(cr: ValkeyCluster, shard: nat, ordinal: nat): (h: string)
    ensures PodIndex(cr, h) == Some((shard, ordinal))
    ensures h != ""
  {
    IndexOfName(cr, shard, ordinal, HeadlessServiceName(cr) + "." + cr.namespace + ".svc");
    PodName(cr, shard, ordinal) + "." + (HeadlessServiceName(cr) + "." + cr.namespace + ".svc")
  }

  function ReadNat(s: string): Option<nat> {
    if AllDigits(s) then Some(Value(s)) else None
  }

  /** Two numbers written as "i-j." in front of anything. */
  function ReadPair(s: string): Option<(nat, nat)> {
    match Cut(s, '-')
    case None => None
    case Some((shard, rest)) =>
      match Cut(rest, '.')
      case None => None
      case Some((ordinal, _)) =>
        var i, j := ReadNat(shard), ReadNat(ordinal);
        if i.Some? && j.Some? then Some((i.value, j.value)) else None
  }

  /** The shard and ordinal written in a pod's DNS name. */
  function PodIndex(cr: ValkeyCluster, h: string): Option<(nat, nat)> {
    var skip := |cr.name + "-shard-"|;
    if |h| < skip then None else ReadPair(h[skip..])
  }

  lemma PairReads(i: string, j: string, rest: string)
    requires AllDigits(i) && AllDigits(j)
    ensures ReadPair(i + ['-'] + (j + ['.'] + rest)) == Some((Value(i), Value(j)))
  {
    NotDigit('-', i);
    NotDigit('.', j);
    CutAt(i, '-', j + ['.'] + rest);
    CutAt(j, '.', rest);
  }

  lemma Regroup(prefix: string, i: string, j: string, rest: string)
    ensures ((prefix + i) + "-" + j + "." + rest)[|prefix|..] == i + ['-'] + (j + ['.'] + rest)
  {
  }

  lemma IndexOfName(cr: ValkeyCluster, shard: nat, ordinal: nat, rest: string)
    ensures PodIndex(cr, PodName(cr, shard, ordinal) + "." + rest) == Some((shard, ordinal))
  {
    ValueOfDigits(shard);
    ValueOfDigits(ordinal);
    PairReads(Digits(shard), Digits(ordinal), rest);
    Regroup(cr.name + "-shard-", Digits(shard), Digits(ordinal), rest);
    hide Digits, Value, Cut, ReadPair;
  }

  lemma NotDigit(c: char, s: string)
    requires !IsDigit(c) && AllDigits(s)
    ensures c !in s
  {
  }

  lemma DigitsHaveNoDot(n: nat)
    ensures '.' !in Itoa(n)
  {
    ValueOfDigits(n);
    NotDigit('.', Digits(n));
  }

  lemma PodNameHasNoDot(cr: ValkeyCluster, shard: nat, ordinal: nat)
    requires '.' !in cr.name
    ensures '.' !in PodName(cr, shard, ordinal)
  {
    DigitsHaveNoDot(shard);
    DigitsHaveNoDot(ordinal);
    assert '.' !in "-shard-" && '.' !in "-";
    hide Itoa;
  }

  /** The parts of the DNS name: the pod, the headless service, the namespace, and "svc". */
  lemma FQDNParts(cr: ValkeyCluster, shard: nat, ordinal: nat)
    requires '.' !in cr.name && '.' !in cr.namespace
    ensures Split(PodFQDN(cr, shard, ordinal), '.') ==
            [cr.name + "-shard-" + Itoa(shard) + "-" + Itoa(ordinal), cr.name + "-nodes", cr.namespace, "svc"]
  {
    var pod, service := PodName(cr, shard, ordinal), HeadlessServiceName(cr);
    PodNameHasNoDot(cr, shard, ordinal);
    assert '.' !in "-nodes" && '.' !in "svc";
    var parts := [pod, service, cr.namespace, "svc"];
    assert parts[1..] == [service, cr.namespace, "svc"] && parts[1..][1..] == [cr.namespace, "svc"]
           && parts[1..][1..][1..] == ["svc"];
    var two := cr.namespace + ['.'] + "svc";
    assert Join(parts[1..][1..], '.') == two;
    assert Join(parts[1..], '.') == service + ['.'] + two;
    assert Join(parts, '.') == pod + ['.'] + (service + ['.'] + two);
    assert pod + ['.'] + (service + ['.'] + two) == pod + "." + (service + "." + cr.namespace + ".svc");
    SplitJoin(parts, '.');
  }

  /** No two pods share a name. */
  lemma PodNamesDiffer(cr: ValkeyCluster, i: nat, j: nat, i': nat, j': nat)
    ensures PodFQDN(cr, i, j) == PodFQDN(cr, i', j') <==> i == i' && j == j'
  {
    hide PodFQDN;
    assert PodIndex(cr, PodFQDN(cr, i, j)) == Some((i, j));
    assert PodIndex(cr, PodFQDN(cr, i', j')) == Some((i', j'));
  }
}
