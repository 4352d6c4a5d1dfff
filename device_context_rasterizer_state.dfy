/**
 * The DeviceContext of the rasterizer-state chapter: SetPipeline binds the
 * viewport and the pipeline's rasterizer state, and no resource table.
 */
module RasterizerStateContext {
  import opened Wrappers
  import opened Ints
  import opened D3D11
  import opened Pipelines
  import opened DeviceContextCommon

  /** The two calls that end SetPipeline: the viewport, then the rasterizer state. */
  lemma ViewportAndRasterizerCalls(ctx: Context, viewport: Viewport, state: Ptr)
    ensures Issue(Issue(ctx, RSSetViewports([viewport])), RSSetState(state))
         == Context(ctx.bindings.(viewports := [viewport], rasterizerState := state),
                    ctx.trace + [RSSetViewports([viewport]), RSSetState(state)])
  {
  }

  class DeviceContext {
    var context: Context
    var activePipeline: Pipeline?
    var drawVertices: U32
    var drawIndices: U32

    constructor (deviceContext: Context)
      ensures context == deviceContext && activePipeline == null
      ensures drawVertices == 0 && drawIndices == 0
    {
      context := deviceContext;
      activePipeline := null;
      drawVertices := 0;
      drawIndices := 0;
    }

    method Clear(renderTarget: Ptr, clearColor: seq<real>)
      requires |clearColor| == 4
      modifies this`context
      ensures context.bindings == old(context.bindings).(renderTargets := [renderTarget], depthStencilView := None)
      ensures context.trace == old(context.trace) + ClearCalls(renderTarget, clearColor)
    {
      context := Issue(context, ClearRenderTargetView(renderTarget, clearColor));
      context := Issue(context, OMSetRenderTargets([renderTarget], None));
    }

    /** Installs shaders, input assembly, viewport and rasterizer state; the resource table and depth state are not bound. */
    method SetPipeline(pipeline: Pipeline)
      modifies this`context, this`activePipeline
      ensures activePipeline == pipeline
      ensures context.bindings == ShadersBound(old(context.bindings), pipeline)
        .(viewports := [pipeline.viewport], rasterizerState := pipeline.rasterizerState)
      ensures context.bindings.slots == old(context.bindings.slots)
      ensures context.trace == old(context.trace) + ShaderCalls(pipeline)
        + [RSSetViewports([pipeline.viewport]), RSSetState(pipeline.rasterizerState)]
    {
      activePipeline := pipeline;
      var c := InstallShaders(context, pipeline);
      ghost var installed := c;
      c := Issue(c, RSSetViewports([pipeline.viewport]));
      c := Issue(c, RSSetState(pipeline.rasterizerState));
      ViewportAndRasterizerCalls(installed, pipeline.viewport, pipeline.rasterizerState);
      context := c;
    }

    method SetVertexBuffer(vertexBuffer: GpuBuffer, vertexOffset: U32)
      requires activePipeline != null && activePipeline.vertexSize != 0
      modifies this`context, this`drawVertices
      ensures context == Issue(old(context), VertexBufferCall(vertexBuffer, activePipeline.vertexSize, vertexOffset))
      ensures drawVertices == DrawVertexCount(vertexBuffer.desc.byteWidth, activePipeline.vertexSize)
    {
      context := Issue(context, IASetVertexBuffers(0, Some(vertexBuffer.handle), activePipeline.vertexSize, vertexOffset));
      drawVertices := vertexBuffer.desc.byteWidth / activePipeline.vertexSize;
    }

    method SetIndexBuffer(indexBuffer: GpuBuffer, indexOffset: U32)
      modifies this`context, this`drawIndices
      ensures context == Issue(old(context), IndexBufferCall(indexBuffer, indexOffset))
      ensures drawIndices == DrawIndexCount(indexBuffer.desc.byteWidth)
    {
      context := Issue(context, IASetIndexBuffer(Some(indexBuffer.handle), R32_UINT, indexOffset));
      drawIndices := indexBuffer.desc.byteWidth / 4;
    }

    method UpdateSubresource(buffer: Ptr, data: nat)
      modifies this`context
      ensures context == Issue(old(context), D3D11.UpdateSubresource(buffer, data))
      ensures context.bindings == old(context.bindings)
    {
      context := Issue(context, D3D11.UpdateSubresource(buffer, data));
    }

    method Draw()
      modifies this`context
      ensures context == Issue(old(context), D3D11.Draw(drawVertices, 0))
      ensures context.bindings == old(context.bindings)
    {
      context := Issue(context, D3D11.Draw(drawVertices, 0));
    }

    method DrawIndexed()
      modifies this`context
      ensures context == Issue(old(context), D3D11.DrawIndexed(drawIndices, 0, 0))
      ensures context.bindings == old(context.bindings)
    {
      context := Issue(context, D3D11.DrawIndexed(drawIndices, 0, 0));
    }

    method Flush()
      modifies this`context
      ensures context == Issue(old(context), D3D11.Flush)
      ensures context.bindings == old(context.bindings)
    {
      context := Issue(context, D3D11.Flush);
    }
  }
}
