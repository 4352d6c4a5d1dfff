/**
 * The DeviceContext of the depth-buffer chapter: Clear also clears a depth
 * buffer when one is given, and SetPipeline binds the pipeline's resource table,
 * its depth-stencil state and its viewport.
 */
module DepthBufferContext {
  import opened Wrappers
  import opened Ints
  import opened D3D11
  import opened ResourceDescriptors
  import opened Pipelines
  import opened ResourceRouting
  import opened DeviceContextCommon

  /** The two calls that end SetPipeline: the depth-stencil state with reference 0, then the viewport. */
  lemma DepthAndViewportCalls(ctx: Context, state: Ptr, viewport: Viewport)
    ensures Issue(Issue(ctx, OMSetDepthStencilState(state, 0)), RSSetViewports([viewport]))
         == Context(ctx.bindings.(depthStencilState := state, stencilRef := 0, viewports := [viewport]),
                    ctx.trace + [OMSetDepthStencilState(state, 0), RSSetViewports([viewport])])
  {
  }

  class DeviceContext {
    var context: Context
    var activePipeline: Pipeline?
    var drawVertices: U32
    var drawIndices: U32
    /** The order in which the last SetPipeline walked the pipeline's resource table. */
    ghost var traversal: seq<SlotKey>

    /** Takes over the immediate context; no pipeline, both draw counts 0. (ImGui set-up is not modelled.) */
    constructor (deviceContext: Context)
      ensures context == deviceContext && activePipeline == null
      ensures drawVertices == 0 && drawIndices == 0
    {
      context := deviceContext;
      activePipeline := null;
      drawVertices := 0;
      drawIndices := 0;
      traversal := [];
    }

    /** Clears the render target, and the depth buffer (depth only, stencil 0) when there is one, then binds both. */
    method Clear(renderTarget: Ptr, clearColor: seq<real>, depthStencilView: Ptr, clearDepth: real)
      requires |clearColor| == 4
      modifies this`context
      ensures context.bindings == old(context.bindings).(renderTargets := [renderTarget], depthStencilView := depthStencilView)
      ensures context.trace == old(context.trace)
        + [ClearRenderTargetView(renderTarget, clearColor)]
        + (if depthStencilView.Some? then [ClearDepthStencilView(depthStencilView.value, true, false, clearDepth, 0)] else [])
        + [OMSetRenderTargets([renderTarget], depthStencilView)]
    {
      context := Issue(context, ClearRenderTargetView(renderTarget, clearColor));
      if depthStencilView != None {
        context := Issue(context, ClearDepthStencilView(depthStencilView.value, true, false, clearDepth, 0));
      }
      context := Issue(context, OMSetRenderTargets([renderTarget], depthStencilView));
    }

    /**
     * Installs the pipeline: shaders and input assembly, every entry of the
     * resource table at its binding point (in the table's iteration order),
     * the depth-stencil state with stencil reference 0, and the viewport.
     * The rasterizer state is left as it was.
     */
    method SetPipeline(pipeline: Pipeline)
      modifies this`context, this`activePipeline, this`traversal
      ensures activePipeline == pipeline
      ensures IsTraversal(traversal, pipeline.resources)
      ensures context.bindings ==
        Routed(ShadersBound(old(context.bindings), pipeline), pipeline.resources, pipeline.resources.Keys)
          .(depthStencilState := pipeline.depthStencilState, stencilRef := 0, viewports := [pipeline.viewport])
      ensures context.bindings.rasterizerState == old(context.bindings.rasterizerState)
      ensures context.trace == old(context.trace) + ShaderCalls(pipeline) + RouteCalls(pipeline.resources, traversal)
        + [OMSetDepthStencilState(pipeline.depthStencilState, 0), RSSetViewports([pipeline.viewport])]
    {
      activePipeline := pipeline;
      var c := InstallShaders(context, pipeline);
      ghost var order;
      c, order := BindAll(c, pipeline.resources);
      ghost var routed := c;
      c := Issue(c, OMSetDepthStencilState(pipeline.depthStencilState, 0));
      c := Issue(c, RSSetViewports([pipeline.viewport]));
      DepthAndViewportCalls(routed, pipeline.depthStencilState, pipeline.viewport);
      context := c;
      traversal := order;
    }

    /** Binds the buffer at input slot 0 with the active pipeline's stride and counts the whole vertices it holds. */
    method SetVertexBuffer(vertexBuffer: GpuBuffer, vertexOffset: U32)
      requires activePipeline != null && activePipeline.vertexSize != 0
      modifies this`context, this`drawVertices
      ensures context == Issue(old(context), VertexBufferCall(vertexBuffer, activePipeline.vertexSize, vertexOffset))
      ensures drawVertices == DrawVertexCount(vertexBuffer.desc.byteWidth, activePipeline.vertexSize)
    {
      context := Issue(context, IASetVertexBuffers(0, Some(vertexBuffer.handle), activePipeline.vertexSize, vertexOffset));
      drawVertices := vertexBuffer.desc.byteWidth / activePipeline.vertexSize;
    }

    /** Binds the buffer as 32-bit indices and counts the whole indices it holds. */
    method SetIndexBuffer(indexBuffer: GpuBuffer, indexOffset: U32)
      modifies this`context, this`drawIndices
      ensures context == Issue(old(context), IndexBufferCall(indexBuffer, indexOffset))
      ensures drawIndices == DrawIndexCount(indexBuffer.desc.byteWidth)
    {
      context := Issue(context, IASetIndexBuffer(Some(indexBuffer.handle), R32_UINT, indexOffset));
      drawIndices := indexBuffer.desc.byteWidth / 4;
    }

    method UpdateSubresource(buffer: Ptr, data: nat)
      modifies this`context
      ensures context == Issue(old(context), D3D11.UpdateSubresource(buffer, data))
      ensures context.bindings == old(context.bindings)
    {
      context := Issue(context, D3D11.UpdateSubresource(buffer, data));
    }

    /** Draws the vertices counted by the last SetVertexBuffer, from vertex 0. */
    method Draw()
      modifies this`context
      ensures context == Issue(old(context), D3D11.Draw(drawVertices, 0))
      ensures context.bindings == old(context.bindings)
    {
      context := Issue(context, D3D11.Draw(drawVertices, 0));
    }

    /** Draws the indices counted by the last SetIndexBuffer, from index 0 with base vertex 0. */
    method DrawIndexed()
      modifies this`context
      ensures context == Issue(old(context), D3D11.DrawIndexed(drawIndices, 0, 0))
      ensures context.bindings == old(context.bindings)
    {
      context := Issue(context, D3D11.DrawIndexed(drawIndices, 0, 0));
    }

    method Flush()
      modifies this`context
      ensures context == Issue(old(context), D3D11.Flush)
      ensures context.bindings == old(context.bindings)
    {
      context := Issue(context, D3D11.Flush);
    }
  }
}
