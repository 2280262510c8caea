/**
 * A stand-in for the shader pipeline collaborator (pipeline.hpp is not part
 * of this model): it records its calls and owns the framebuffer name that the
 * light's shadow pass attaches cube layers to.
 */
module Pipelines {
  import opened Trace

  class Pipeline {
    const id: PipelineId
    var framebuffer: Handle

    constructor (id0: PipelineId)
      ensures id == id0 && framebuffer == 0
    {
      id := id0;
      framebuffer := 0;
    }

    /** Pipeline::init with the two shader stage files. */
    method Init(ctx: Context, vertexStage: string, fragmentStage: string)
      modifies ctx`trace
      ensures ctx.trace == old(ctx.trace).Then(PipelineInit(id, vertexStage, fragmentStage))
    {
      ctx.Emit(PipelineInit(id, vertexStage, fragmentStage));
    }

    /** Pipeline::create_shadow_framebuffer: a fresh framebuffer name. */
    method CreateShadowFramebuffer(ctx: Context)
      modifies this`framebuffer, ctx`trace, ctx`nextName
      ensures framebuffer == old(ctx.nextName) && ctx.nextName == framebuffer + 1
      ensures ctx.trace == old(ctx.trace).Then(PipelineCreateShadowFramebuffer(id, framebuffer))
    {
      framebuffer := ctx.NewName();
      ctx.Emit(PipelineCreateShadowFramebuffer(id, framebuffer));
    }

    method Bind(ctx: Context)
      modifies ctx`trace
      ensures ctx.trace == old(ctx.trace).Then(PipelineBind(id))
    {
      ctx.Emit(PipelineBind(id));
    }

    method Destroy(ctx: Context)
      modifies ctx`trace
      ensures ctx.trace == old(ctx.trace).Then(PipelineDestroy(id))
    {
      ctx.Emit(PipelineDestroy(id));
    }
  }
}
