/**
 * The DeviceContext of the mesh-loading chapter: no depth buffer, and
 * SetPipeline binds the resource table and the viewport. Its constructor only
 * takes over the immediate context: the active pipeline and both draw counts
 * stay indeterminate until SetPipeline, SetVertexBuffer and SetIndexBuffer
 * assign them (None below).
 */
module LoadingMeshesContext {
  import opened Wrappers
  import opened Ints
  import opened D3D11
  import opened ResourceDescriptors
  import opened Pipelines
  import opened ResourceRouting
  import opened DeviceContextCommon

  /** The call that ends SetPipeline: the pipeline's viewport. */
  lemma ViewportCall(ctx: Context, viewport: Viewport)
    ensures Issue(ctx, RSSetViewports([viewport]))
         == Context(ctx.bindings.(viewports := [viewport]), ctx.trace + [RSSetViewports([viewport])])
  {
  }

  class DeviceContext {
    var context: Context
    var activePipeline: Option<Pipeline>
    var drawVertices: Option<U32>
    var drawIndices: Option<U32>
    /** The order in which the last SetPipeline walked the pipeline's resource table. */
    ghost var traversal: seq<SlotKey>

    constructor (deviceContext: Context)
      ensures context == deviceContext
      ensures activePipeline == None && drawVertices == None && drawIndices == None
    {
      context := deviceContext;
      activePipeline := None;
      drawVertices := None;
      drawIndices := None;
      traversal := [];
    }

    /** Clears the render target and binds it alone, with no depth buffer. */
    method Clear(renderTarget: Ptr, clearColor: seq<real>)
      requires |clearColor| == 4
      modifies this`context
      ensures context.bindings == old(context.bindings).(renderTargets := [renderTarget], depthStencilView := None)
      ensures context.trace == old(context.trace) + ClearCalls(renderTarget, clearColor)
    {
      context := Issue(context, ClearRenderTargetView(renderTarget, clearColor));
      context := Issue(context, OMSetRenderTargets([renderTarget], None));
    }

    /**
     * Installs the pipeline: shaders and input assembly, every entry of the
     * resource table at its binding point (in the table's iteration order),
     * and the viewport. Depth-stencil and rasterizer states are left as they were.
     */
    method SetPipeline(pipeline: Pipeline)
      modifies this`context, this`activePipeline, this`traversal
      ensures activePipeline == Some(pipeline)
      ensures IsTraversal(traversal, pipeline.resources)
      ensures context.bindings ==
        Routed(ShadersBound(old(context.bindings), pipeline), pipeline.resources, pipeline.resources.Keys)
          .(viewports := [pipeline.viewport])
      ensures context.bindings.depthStencilState == old(context.bindings.depthStencilState)
      ensures context.bindings.rasterizerState == old(context.bindings.rasterizerState)
      ensures context.trace == old(context.trace) + ShaderCalls(pipeline) + RouteCalls(pipeline.resources, traversal)
        + [RSSetViewports([pipeline.viewport])]
    {
      activePipeline := Some(pipeline);
      var c := InstallShaders(context, pipeline);
      ghost var order;
      c, order := BindAll(c, pipeline.resources);
      ghost var routed := c;
      c := Issue(c, RSSetViewports([pipeline.viewport]));
      ViewportCall(routed, pipeline.viewport);
      context := c;
      traversal := order;
    }

    /** Binds the buffer at input slot 0 with the active pipeline's stride and counts the whole vertices it holds. */
    method SetVertexBuffer(vertexBuffer: GpuBuffer, vertexOffset: U32)
      requires activePipeline.Some? && activePipeline.value.vertexSize != 0
      modifies this`context, this`drawVertices
      ensures context == Issue(old(context), VertexBufferCall(vertexBuffer, activePipeline.value.vertexSize, vertexOffset))
      ensures drawVertices == Some(DrawVertexCount(vertexBuffer.desc.byteWidth, activePipeline.value.vertexSize))
    {
      var pipeline := activePipeline.value;
      context := Issue(context, IASetVertexBuffers(0, Some(vertexBuffer.handle), pipeline.vertexSize, vertexOffset));
      drawVertices := Some(vertexBuffer.desc.byteWidth / pipeline.vertexSize);
    }

    /** Binds the buffer as 32-bit indices and counts the whole indices it holds. */
    method SetIndexBuffer(indexBuffer: GpuBuffer, indexOffset: U32)
      modifies this`context, this`drawIndices
      ensures context == Issue(old(context), IndexBufferCall(indexBuffer, indexOffset))
      ensures drawIndices == Some(DrawIndexCount(indexBuffer.desc.byteWidth))
    {
      context := Issue(context, IASetIndexBuffer(Some(indexBuffer.handle), R32_UINT, indexOffset));
      drawIndices := Some(indexBuffer.desc.byteWidth / 4);
    }

    method UpdateSubresource(buffer: Ptr, data: nat)
      modifies this`context
      ensures context == Issue(old(context), D3D11.UpdateSubresource(buffer, data))
      ensures context.bindings == old(context.bindings)
    {
      context := Issue(context, D3D11.UpdateSubresource(buffer, data));
    }

    /** Draws the vertices counted by the last SetVertexBuffer, which must have happened. */
    method Draw()
      requires drawVertices.Some?
      modifies this`context
      ensures context == Issue(old(context), D3D11.Draw(drawVertices.value, 0))
      ensures context.bindings == old(context.bindings)
    {
      context := Issue(context, D3D11.Draw(drawVertices.value, 0));
    }

    /** Draws the indices counted by the last SetIndexBuffer, which must have happened. */
    method DrawIndexed()
      requires drawIndices.Some?
      modifies this`context
      ensures context == Issue(old(context), D3D11.DrawIndexed(drawIndices.value, 0, 0))
      ensures context.bindings == old(context.bindings)
    {
      context := Issue(context, D3D11.DrawIndexed(drawIndices.value, 0, 0));
    }

    method Flush()
      modifies this`context
      ensures context == Issue(old(context), D3D11.Flush)
      ensures context.bindings == old(context.bindings)
    {
      context := Issue(context, D3D11.Flush);
    }
  }
}
