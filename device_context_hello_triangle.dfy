/**
 * The first DeviceContext (refactored hello-triangle): SetPipeline installs only
 * shaders and input assembly, and the viewport is set separately. The
 * constructor leaves the active pipeline and the vertex count indeterminate.
 */
module HelloTriangleContext {
  import opened Wrappers
  import opened Ints
  import opened D3D11
  import opened Pipelines
  import opened DeviceContextCommon

  class DeviceContext {
    var context: Context
    var activePipeline: Option<Pipeline>
    var drawVertices: Option<U32>

    constructor (deviceContext: Context)
      ensures context == deviceContext && activePipeline == None && drawVertices == None
    {
      context := deviceContext;
      activePipeline := None;
      drawVertices := None;
    }

    method Clear(renderTarget: Ptr, clearColor: seq<real>)
      requires |clearColor| == 4
      modifies this`context
      ensures context.bindings == old(context.bindings).(renderTargets := [renderTarget], depthStencilView := None)
      ensures context.trace == old(context.trace) + ClearCalls(renderTarget, clearColor)
    {
      context := Issue(context, ClearRenderTargetView(renderTarget, clearColor));
      context := Issue(context, OMSetRenderTargets([renderTarget], None));
    }

    /** Installs shaders and input assembly and nothing else. */
    method SetPipeline(pipeline: Pipeline)
      modifies this`context, this`activePipeline
      ensures activePipeline == Some(pipeline)
      ensures context.bindings == ShadersBound(old(context.bindings), pipeline)
      ensures context.trace == old(context.trace) + ShaderCalls(pipeline)
    {
      activePipeline := Some(pipeline);
      context := InstallShaders(context, pipeline);
    }

    method SetVertexBuffer(vertexBuffer: GpuBuffer, vertexOffset: U32)
      requires activePipeline.Some? && activePipeline.value.vertexSize != 0
      modifies this`context, this`drawVertices
      ensures context == Issue(old(context), VertexBufferCall(vertexBuffer, activePipeline.value.vertexSize, vertexOffset))
      ensures drawVertices == Some(DrawVertexCount(vertexBuffer.desc.byteWidth, activePipeline.value.vertexSize))
    {
      var pipeline := activePipeline.value;
      context := Issue(context, IASetVertexBuffers(0, Some(vertexBuffer.handle), pipeline.vertexSize, vertexOffset));
      drawVertices := Some(vertexBuffer.desc.byteWidth / pipeline.vertexSize);
    }

    /** Binds the one viewport given, whatever the pipeline holds. */
    method SetViewport(viewport: Viewport)
      modifies this`context
      ensures context.bindings == old(context.bindings).(viewports := [viewport])
      ensures context.trace == old(context.trace) + [RSSetViewports([viewport])]
    {
      context := Issue(context, RSSetViewports([viewport]));
    }

    method Draw()
      requires drawVertices.Some?
      modifies this`context
      ensures context == Issue(old(context), D3D11.Draw(drawVertices.value, 0))
      ensures context.bindings == old(context.bindings)
    {
      context := Issue(context, D3D11.Draw(drawVertices.value, 0));
    }

    method Flush()
      modifies this`context
      ensures context == Issue(old(context), D3D11.Flush)
      ensures context.bindings == old(context.bindings)
    {
      context := Issue(context, D3D11.Flush);
    }
  }
}
