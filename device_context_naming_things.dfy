/**
 * The DeviceContext of the naming chapter: SetPipeline installs shaders, input
 * assembly and the pipeline's viewport. The constructor leaves the active
 * pipeline and the vertex count indeterminate.
 */
module NamingThingsContext {
  import opened Wrappers
  import opened Ints
  import opened D3D11
  import opened Pipelines
  import opened DeviceContextCommon

  class DeviceContext {
    var context: Context
    var activePipeline: Option<Pipeline>
    var drawVertices: Option<U32>

    constructor (deviceContext: Context)
      ensures context == deviceContext && activePipeline == None && drawVertices == None
    {
      context := deviceContext;
      activePipeline := None;
      drawVertices := None;
    }

    method Clear(renderTarget: Ptr, clearColor: seq<real>)
      requires |clearColor| == 4
      modifies this`context
      ensures context.bindings == old(context.bindings).(renderTargets := [renderTarget], depthStencilView := None)
      ensures context.trace == old(context.trace) + ClearCalls(renderTarget, clearColor)
    {
      context := Issue(context, ClearRenderTargetView(renderTarget, clearColor));
      context := Issue(context, OMSetRenderTargets([renderTarget], None));
    }

    /** Installs shaders, input assembly and the pipeline's viewport. */
    method SetPipeline(pipeline: Pipeline)
      modifies this`context, this`activePipeline
      ensures activePipeline == Some(pipeline)
      ensures context.bindings == ShadersBound(old(context.bindings), pipeline).(viewports := [pipeline.viewport])
      ensures context.trace == old(context.trace) + ShaderCalls(pipeline) + [RSSetViewports([pipeline.viewport])]
    {
      activePipeline := Some(pipeline);
      var c := InstallShaders(context, pipeline);
      context := Issue(c, RSSetViewports([pipeline.viewport]));
    }

    method SetVertexBuffer(vertexBuffer: GpuBuffer, vertexOffset: U32)
      requires activePipeline.Some? && activePipeline.value.vertexSize != 0
      modifies this`context, this`drawVertices
      ensures context == Issue(old(context), VertexBufferCall(vertexBuffer, activePipeline.value.vertexSize, vertexOffset))
      ensures drawVertices == Some(DrawVertexCount(vertexBuffer.desc.byteWidth, activePipeline.value.vertexSize))
    {
      var pipeline := activePipeline.value;
      context := Issue(context, IASetVertexBuffers(0, Some(vertexBuffer.handle), pipeline.vertexSize, vertexOffset));
      drawVertices := Some(vertexBuffer.desc.byteWidth / pipeline.vertexSize);
    }

    method Draw()
      requires drawVertices.Some?
      modifies this`context
      ensures context == Issue(old(context), D3D11.Draw(drawVertices.value, 0))
      ensures context.bindings == old(context.bindings)
    {
      context := Issue(context, D3D11.Draw(drawVertices.value, 0));
    }

    method Flush()
      modifies this`context
      ensures context == Issue(old(context), D3D11.Flush)
      ensures context.bindings == old(context.bindings)
    {
      context := Issue(context, D3D11.Flush);
    }
  }
}
