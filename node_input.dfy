/**
 * The graph's source node: it has no inputs and one IMAGE output, on which it publishes
 * the loaded image's texture. It never touches a framebuffer pool.
 */
module NodeInputs {
  import opened Wrappers
  import opened GpuModel
  import opened Framebuffers
  import opened Sockets
  import opened DependencyResolvers

  class NodeInput {
    const id: nat
    const inputSockets: seq<InputSocket>
    const outputSockets: seq<OutputSocket>
    /** Never assigned: the input node owns no render target. */
    var framebuffer: Option<Framebuffer>
    const dependencyResolver: DependencyResolver
    const startTexture: Texture

    /** The shape the constructor gives: no inputs, one IMAGE output owned by the node. */
    predicate Shaped()
    {
      && inputSockets == []
      && |outputSockets| == 1 && outputSockets[0].name == "output"
      && outputSockets[0].socketType == Image && outputSockets[0].nodeId == id
    }

    constructor (id: nat, startTexture: Texture)
      ensures Shaped() && this.id == id && this.startTexture == startTexture
      ensures fresh(outputSockets[0]) && outputSockets[0].data == None && outputSockets[0].connections == {}
      ensures framebuffer == None
      ensures fresh(dependencyResolver)
      ensures dependencyResolver.totalDependantCount == 0 && dependencyResolver.dependencyUsedCount == 0
    {
      this.id := id;
      inputSockets := [];
      var output := new OutputSocket("output", Image, id);
      outputSockets := [output];
      this.startTexture := startTexture;
      framebuffer := None;
      dependencyResolver := new DependencyResolver();
    }

    /** isNodeNeeded asks the resolver. */
    method IsNodeNeeded() returns (b: bool)
      modifies dependencyResolver`dependencyUsedCount
      ensures (b, dependencyResolver.dependencyUsedCount)
        == Resolve(dependencyResolver.totalDependantCount, old(dependencyResolver.dependencyUsedCount))
    {
      b := dependencyResolver.IsResolved();
    }

    /** render: the start texture goes on output 0 and is returned. */
    method Render() returns (r: Option<Texture>)
      requires Shaped()
      modifies outputSockets`data
      ensures outputSockets[0].data == Some(startTexture)
      ensures r == outputSockets[0].data
    {
      outputSockets[0].data := Some(startTexture);
      r := outputSockets[0].data;
    }
  }
}
