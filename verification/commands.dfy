/** The Vulkan command buffer as the model sees it: the sequence of commands
    recorded into it. A recording call appends; nothing is ever removed. */
module Commands {
  import opened MipMath

  /** A `VkPipeline` handle; 0 stands for `VK_NULL_HANDLE`. */
  type Pipeline = nat

  const NullPipeline: Pipeline := 0

  datatype Stage = ComputeShader | Transfer | FragmentShader

  datatype Access = ShaderRead | ShaderWrite | TransferRead | TransferWrite | MemoryRead

  datatype Command =
    | BindPipeline(pipeline: Pipeline)
      /** One 32-bit push constant at `offset`. */
    | PushConstant(offset: u32, value: u32)
      /** `vkCmdDispatch(cmdBuf, groups, 1, 1)`. */
    | Dispatch(groups: u32)
      /** A pipeline barrier with one memory barrier. */
    | Barrier(srcStages: set<Stage>, dstStages: set<Stage>,
              srcAccess: set<Access>, dstAccess: set<Access>)
      /** A linear-filtered blit of the whole of one mip level to the next. */
    | Blit(srcLevel: u32, srcWidth: nat, srcHeight: nat,
           dstLevel: u32, dstWidth: nat, dstHeight: nat)
    | BindDescriptorSets

  /** The barrier `nvproCmdPyramidDispatch` records between two dispatches. */
  const ComputeToCompute: Command :=
    Barrier({ComputeShader}, {ComputeShader}, {ShaderWrite}, {ShaderRead})

  /** The barrier recorded between two iterations of the blit fallback. */
  const BetweenBlitOrCompute: Command :=
    Barrier({ComputeShader, Transfer}, {ComputeShader, Transfer},
            {ShaderWrite, TransferWrite}, {ShaderRead, TransferRead})

  predicate IsBarrier(c: Command)
  {
    c.Barrier?
  }

  /** Number of barriers in a recorded command sequence. */
  function BarrierCount(cmds: seq<Command>): (n: nat)
    ensures n <= |cmds|
  {
    if cmds == [] then 0
    else (if cmds[0].Barrier? then 1 else 0) + BarrierCount(cmds[1..])
  }

  lemma {:induction false} BarrierCountAppend(a: seq<Command>, b: seq<Command>)
    ensures BarrierCount(a + b) == BarrierCount(a) + BarrierCount(b)
  {
    if a != [] {
      assert (a + b)[0] == a[0];
      assert (a + b)[1..] == a[1..] + b;
      BarrierCountAppend(a[1..], b);
    } else {
      assert a + b == b;
    }
  }

  lemma {:induction false} NoBarrierMeansZero(cmds: seq<Command>)
    requires forall i :: 0 <= i < |cmds| ==> !cmds[i].Barrier?
    ensures BarrierCount(cmds) == 0
  {
    if cmds != [] {
      NoBarrierMeansZero(cmds[1..]);
    }
  }

  lemma AppendAssoc<T>(a: seq<T>, b: seq<T>, c: seq<T>)
    ensures (a + b) + c == a + (b + c)
  {
  }

  /** The pipeline bound after recording `cmds`, when `bound` was bound
      before. */
  function BoundAfter(bound: Pipeline, cmds: seq<Command>): Pipeline
    decreases |cmds|
  {
    if cmds == [] then bound
    else BoundAfter(if cmds[0].BindPipeline? then cmds[0].pipeline else bound, cmds[1..])
  }

  class CommandBuffer {
    var log: seq<Command>

    constructor ()
      ensures log == []
    {
      log := [];
    }

    method Record(cmds: seq<Command>)
      modifies this
      ensures log == old(log) + cmds
    {
      log := log + cmds;
    }
  }
}
