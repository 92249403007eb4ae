/**
 * `Data._load_nodes` and `Data.get_marketplace`: the marketplace listing maps
 * each host node id to a nested description of the node, and each node
 * becomes one flat record, keyed by its id.
 */
module Marketplace {
  import opened Wrappers

  /** A JSON leaf as decoded from a response; its type is never inspected here. */
  datatype Scalar = Null | Bool(b: bool) | Number(n: real) | Text(s: string)

  datatype Location = Location(city: Scalar, country: Scalar, region: Scalar)

  /** `ports` is a list whose elements are only counted. */
  datatype Networking = Networking(ports: seq<Scalar>, receive: Scalar, send: Scalar)

  datatype Cpu = Cpu(amount: Scalar, price: Scalar, cpuType: Scalar)

  /** RAM or disk: an amount and its price. */
  datatype Resource = Resource(amount: Scalar, price: Scalar)

  /** `gpu` is an object from GPU model names to offers, in the response's key order. */
  datatype Specs = Specs(cpu: Cpu, gpu: seq<(string, Scalar)>, ram: Resource, storage: Resource)

  datatype Status = Status(listed: Scalar, online: Scalar, report: Scalar, reserved: Scalar, uptime: Scalar)

  /** One entry of the listing's `hostnodes` object. */
  datatype NodeSpec = NodeSpec(location: Location, networking: Networking, specs: Specs, status: Status)

  /** One row of the marketplace table. */
  datatype NodeRecord = NodeRecord(
    id: string,
    city: Scalar, country: Scalar, region: Scalar,
    portCount: nat, internetReceive: Scalar, internetSend: Scalar,
    cpuAmount: Scalar, cpuPrice: Scalar, cpuType: Scalar,
    gpuName: seq<string>,
    ramAmount: Scalar, ramPrice: Scalar,
    storageAmount: Scalar, storagePrice: Scalar,
    listed: Scalar, online: Scalar, report: Scalar, reserved: Scalar, uptime: Scalar)

  /** `set_index("id")` on a frame built from no records finds no `id` column. */
  datatype MarketplaceError = MissingIdColumn

  /** The keys of an object given as key-value pairs, in order (`list(d.keys())`). */
  function KeysOf<V>(kvs: seq<(string, V)>): (ks: seq<string>)
    ensures |ks| == |kvs| && forall i :: 0 <= i < |kvs| ==> ks[i] == kvs[i].0
  {
    if kvs == [] then [] else [kvs[0].0] + KeysOf(kvs[1..])
  }

  /** No key occurs twice, as in a decoded JSON object. */
  predicate DistinctKeys<V>(kvs: seq<(string, V)>) {
    forall i, j :: 0 <= i < j < |kvs| ==> kvs[i].0 != kvs[j].0
  }

  /**
   * `_load_nodes`: the number of ports, the list of GPU model names, and every
   * other leaf copied to its column.
   */
  function LoadNode(id: string, data: NodeSpec): (r: NodeRecord)
    ensures r.id == id
    ensures r.portCount == |data.networking.ports|
    ensures r.gpuName == KeysOf(data.specs.gpu)
    ensures && r.city == data.location.city && r.country == data.location.country
            && r.region == data.location.region
    ensures r.internetReceive == data.networking.receive && r.internetSend == data.networking.send
    ensures && r.cpuAmount == data.specs.cpu.amount && r.cpuPrice == data.specs.cpu.price
            && r.cpuType == data.specs.cpu.cpuType
    ensures && r.ramAmount == data.specs.ram.amount && r.ramPrice == data.specs.ram.price
            && r.storageAmount == data.specs.storage.amount && r.storagePrice == data.specs.storage.price
    ensures && r.listed == data.status.listed && r.online == data.status.online
            && r.report == data.status.report && r.reserved == data.status.reserved
            && r.uptime == data.status.uptime
  {
    NodeRecord(
      id,
      data.location.city, data.location.country, data.location.region,
      |data.networking.ports|, data.networking.receive, data.networking.send,
      data.specs.cpu.amount, data.specs.cpu.price, data.specs.cpu.cpuType,
      KeysOf(data.specs.gpu),
      data.specs.ram.amount, data.specs.ram.price,
      data.specs.storage.amount, data.specs.storage.price,
      data.status.listed, data.status.online, data.status.report, data.status.reserved, data.status.uptime)
  }

  /**
   * What a record keeps of a node: everything but the contents of the ports
   * and the GPU offers, of which it keeps the count and the model names.
   */
  predicate SameListing(a: NodeSpec, b: NodeSpec) {
    && a.location == b.location
    && |a.networking.ports| == |b.networking.ports|
    && a.networking.receive == b.networking.receive && a.networking.send == b.networking.send
    && a.specs.cpu == b.specs.cpu
    && KeysOf(a.specs.gpu) == KeysOf(b.specs.gpu)
    && a.specs.ram == b.specs.ram && a.specs.storage == b.specs.storage
    && a.status == b.status
  }

  /** Two nodes flatten to the same record exactly when their ids and listings agree. */
  lemma LoadNodeKeeps(id1: string, a: NodeSpec, id2: string, b: NodeSpec)
    ensures LoadNode(id1, a) == LoadNode(id2, b) <==> id1 == id2 && SameListing(a, b)
  {
    if LoadNode(id1, a) == LoadNode(id2, b) {
      var ra, rb := LoadNode(id1, a), LoadNode(id2, b);
      assert ra.cpuType == rb.cpuType;
    }
  }

  /**
   * `get_marketplace`: one record per entry of `hostnodes`, in the listing's
   * order, with the ids as the table's index; with no node at all the frame
   * has no `id` column to index by.
   */
  function GetMarketplace(hostnodes: seq<(string, NodeSpec)>): (res: Result<seq<NodeRecord>, MarketplaceError>)
    ensures res.Err? <==> hostnodes == []
    ensures res.Ok? ==> |res.value| == |hostnodes|
    ensures res.Ok? ==> forall i :: 0 <= i < |hostnodes| ==> res.value[i] == LoadNode(hostnodes[i].0, hostnodes[i].1)
  {
    if hostnodes == [] then Err(MissingIdColumn)
    else Ok(seq(|hostnodes|, i requires 0 <= i < |hostnodes| => LoadNode(hostnodes[i].0, hostnodes[i].1)))
  }

  /**
   * Each node id of the listing is the key of exactly one record, and that
   * record is the node's flattened description.
   */
  lemma MarketplaceKeyedById(hostnodes: seq<(string, NodeSpec)>, id: string)
    requires DistinctKeys(hostnodes) && GetMarketplace(hostnodes).Ok?
    ensures var t := GetMarketplace(hostnodes).value;
      forall i, j :: 0 <= i < j < |t| ==> t[i].id != t[j].id
    ensures var t := GetMarketplace(hostnodes).value;
      (exists i :: 0 <= i < |t| && t[i].id == id) <==> (exists n :: 0 <= n < |hostnodes| && hostnodes[n].0 == id)
    ensures var t := GetMarketplace(hostnodes).value;
      forall i, n :: 0 <= i < |t| && 0 <= n < |hostnodes| && t[i].id == hostnodes[n].0 ==>
        t[i] == LoadNode(hostnodes[n].0, hostnodes[n].1)
  {
    var t := GetMarketplace(hostnodes).value;
    if exists n :: 0 <= n < |hostnodes| && hostnodes[n].0 == id {
      var n :| 0 <= n < |hostnodes| && hostnodes[n].0 == id;
      assert t[n].id == id;
    }
  }
}
