/**
 * Typed node sockets. An input socket has at most one source (a single field); an output
 * socket keeps the set of inputs it feeds, so a consumer is linked to it at most once.
 * Every socket value the engine publishes is a texture, so `data` holds a texture id.
 */
module Sockets {
  import opened Wrappers
  import opened GpuModel

  /** The SocketType enum. */
  datatype SocketType = Float | Image | VectorMap | AngleMap

  class OutputSocket {
    const name: string
    const socketType: SocketType
    const nodeId: nat
    var data: Option<Texture>
    var connections: set<InputSocket>

    /** A new output socket carries no value and feeds nobody. */
    constructor (name: string, socketType: SocketType, nodeId: nat)
      ensures this.name == name && this.socketType == socketType && this.nodeId == nodeId
      ensures data == None && connections == {}
    {
      this.name := name;
      this.socketType := socketType;
      this.nodeId := nodeId;
      data := None;
      connections := {};
    }
  }

  class InputSocket {
    const name: string
    const socketType: SocketType
    const nodeId: nat
    var source: Option<OutputSocket>

    /** A new input socket is not connected. */
    constructor (name: string, socketType: SocketType, nodeId: nat)
      ensures this.name == name && this.socketType == socketType && this.nodeId == nodeId
      ensures source == None
    {
      this.name := name;
      this.socketType := socketType;
      this.nodeId := nodeId;
      source := None;
    }

    /** getValue: the data of the connected output, or null when nothing is connected. */
    function GetValue(): (v: Option<Texture>)
      reads this, if source.Some? then {source.value} else {}
      ensures source.Some? ==> v == source.value.data
      ensures source == None ==> v == None
    {
      if source.Some? then source.value.data else None
    }
  }

  /** No socket occurs twice in the list. */
  predicate Distinct(sockets: seq<OutputSocket>)
  {
    forall i, j :: 0 <= i < j < |sockets| ==> sockets[i] != sockets[j]
  }

  /** The textures of the first |sockets| attachments, as socket values. */
  function Published(textures: seq<Texture>, n: nat): (vs: seq<Option<Texture>>)
    requires n <= |textures|
    ensures |vs| == n
    ensures forall i :: 0 <= i < n ==> vs[i] == Some(textures[i])
  {
    seq(n, i requires 0 <= i < n => Some(textures[i]))
  }

  /** The values the sockets carry, in order. */
  function Values(sockets: seq<OutputSocket>): (vs: seq<Option<Texture>>)
    reads sockets
    ensures |vs| == |sockets|
    ensures forall i :: 0 <= i < |sockets| ==> vs[i] == sockets[i].data
  {
    seq(|sockets|, i reads sockets requires 0 <= i < |sockets| => sockets[i].data)
  }

  /**
   * The output loop every node's render ends with: output i receives attachment i of the
   * node's render target.
   */
  method Publish(outputSockets: seq<OutputSocket>, textures: seq<Texture>)
    requires |outputSockets| <= |textures| && Distinct(outputSockets)
    modifies outputSockets`data
    ensures Values(outputSockets) == Published(textures, |outputSockets|)
  {
    var i := 0;
    while i < |outputSockets|
      invariant 0 <= i <= |outputSockets|
      invariant forall j :: 0 <= j < i ==> outputSockets[j].data == Some(textures[j])
    {
      outputSockets[i].data := Some(textures[i]);
      i := i + 1;
    }
  }

  /**
   * The socket shape of every single-image filter node: one IMAGE input named "input" and
   * one IMAGE output named "output", both owned by the node's id.
   */
  predicate ImageFilterShape(id: nat, ins: seq<InputSocket>, outs: seq<OutputSocket>)
  {
    && |ins| == 1 && ins[0].name == "input" && ins[0].socketType == Image && ins[0].nodeId == id
    && |outs| == 1 && outs[0].name == "output" && outs[0].socketType == Image && outs[0].nodeId == id
  }

  /** The two socket lists a filter node's constructor builds. */
  method ImageFilterSockets(id: nat) returns (ins: seq<InputSocket>, outs: seq<OutputSocket>)
    ensures ImageFilterShape(id, ins, outs)
    ensures fresh(ins[0]) && ins[0].source == None
    ensures fresh(outs[0]) && outs[0].data == None && outs[0].connections == {}
  {
    var input := new InputSocket("input", Image, id);
    var output := new OutputSocket("output", Image, id);
    ins := [input];
    outs := [output];
  }
}
