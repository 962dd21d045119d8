/**
 * The method-entry instrumentation of the build plugin (TrackMethodVisitor.kt).
 *
 * The downstream method visitor `mv` is an append-only instruction buffer. The
 * argument types the visitor parses from the method descriptor are given as a
 * sequence of type tags, and the boxing conversion the ASM adapter expands is
 * emitted as one abstract instruction.
 */
module Track {
  import opened Wrappers

  /** A JVM argument type, as `Type.getArgumentTypes` yields it. */
  datatype TypeTag =
    | BooleanType | CharType | ByteType | ShortType | IntType | FloatType | LongType | DoubleType
    | ObjectType(internalName: string)
    | ArrayType(element: TypeTag)

  /** The instructions the visitor emits. */
  datatype Insn =
    | VarInsn(opcode: int, slot: nat)
    | BoxInsn(t: TypeTag)
    | LdcInsn(constant: string)
    | MethodInsn(opcode: int, owner: string, name: string, descriptor: string, isInterface: bool)

  // JVM opcodes, with the values ASM's `Opcodes` gives them.
  const ALOAD: int := 25
  const INVOKESTATIC: int := 184

  /** The tracker entry point called with the view only. */
  const VIEW_DESCRIPTOR: string := "(Landroid/view/View;)V"
  /** The tracker entry point called with the view and the class name. */
  const VIEW_STRING_DESCRIPTOR: string := "(Landroid/view/View;Ljava/lang/String;)V"

  /** Names of nested and synthetic classes contain '$'. */
  predicate IsNested(className: Option<string>) {
    className.Some? && '$' in className.value
  }

  /** The tracker call that closes every group: which `c` is called depends on the class name only. */
  function TrackerCall(className: Option<string>, tracker: string): (call: seq<Insn>)
    ensures className.None? <==> call == []
    ensures call != [] ==>
              call[|call| - 1] == MethodInsn(INVOKESTATIC, tracker, "c",
                                             if IsNested(className) then VIEW_DESCRIPTOR else VIEW_STRING_DESCRIPTOR, false)
    ensures |call| == 2 ==> className.Some? && !IsNested(className) && call[0] == LdcInsn(className.value)
    ensures |call| == (if className.None? then 0 else if IsNested(className) then 1 else 2)
  {
    if IsNested(className) then
      [MethodInsn(INVOKESTATIC, tracker, "c", VIEW_DESCRIPTOR, false)]
    else if className.Some? then
      [LdcInsn(className.value), MethodInsn(INVOKESTATIC, tracker, "c", VIEW_STRING_DESCRIPTOR, false)]
    else
      []
  }

  /** The number of instructions emitted per parameter. */
  function GroupSize(className: Option<string>): (n: nat)
    ensures n == 2 + |TrackerCall(className, "")|
  {
    if IsNested(className) then 3 else if className.Some? then 4 else 2
  }

  /** What one pass of the loop in `onMethodEnter` emits for parameter `i` of type `t`. */
  function Group(className: Option<string>, tracker: string, i: nat, t: TypeTag): (g: seq<Insn>)
    ensures |g| == GroupSize(className)
    ensures g[0] == VarInsn(ALOAD, i + 1) && g[1] == BoxInsn(t)
  {
    [VarInsn(ALOAD, i + 1), BoxInsn(t)] + TrackerCall(className, tracker)
  }

  /** All that `onMethodEnter` emits: one group per argument type, in order. */
  function EntryCode(className: Option<string>, tracker: string, args: seq<TypeTag>): seq<Insn> {
    if args == [] then []
    else EntryCode(className, tracker, args[..|args| - 1])
         + Group(className, tracker, |args| - 1, args[|args| - 1])
  }

  lemma EntryCodeSnoc(className: Option<string>, tracker: string, args: seq<TypeTag>, t: TypeTag)
    ensures EntryCode(className, tracker, args + [t]) == EntryCode(className, tracker, args) + Group(className, tracker, |args|, t)
  {
    assert (args + [t])[..|args|] == args;
  }

  lemma EntryCodeTake(className: Option<string>, tracker: string, args: seq<TypeTag>, i: nat)
    requires i < |args|
    ensures EntryCode(className, tracker, args[..i + 1])
            == EntryCode(className, tracker, args[..i]) + Group(className, tracker, i, args[i])
  {
    assert args[..i + 1] == args[..i] + [args[i]];
    EntryCodeSnoc(className, tracker, args[..i], args[i]);
  }

  /** The entry code has exactly one group per parameter; none at all for a method without parameters. */
  lemma {:induction false} EntryCodeLength(className: Option<string>, tracker: string, args: seq<TypeTag>)
    ensures |EntryCode(className, tracker, args)| == |args| * GroupSize(className)
  {
    if args != [] {
      EntryCodeLength(className, tracker, args[..|args| - 1]);
      var g := GroupSize(className);
      assert |args| * g == (|args| - 1) * g + g;
    }
  }

  /** Group `k` of the entry code sits at offset `k * GroupSize` and is the group of parameter `k`. */
  lemma {:induction false} EntryCodeGroupAt(className: Option<string>, tracker: string, args: seq<TypeTag>, k: nat)
    requires k < |args|
    ensures k * GroupSize(className) + GroupSize(className) <= |EntryCode(className, tracker, args)|
    ensures EntryCode(className, tracker, args)[k * GroupSize(className)..k * GroupSize(className) + GroupSize(className)]
            == Group(className, tracker, k, args[k])
  {
    var g := GroupSize(className);
    var init := args[..|args| - 1];
    var prefix, group := EntryCode(className, tracker, init), Group(className, tracker, |args| - 1, args[|args| - 1]);
    var code := EntryCode(className, tracker, args);
    assert code == prefix + group;
    EntryCodeLength(className, tracker, init);
    assert |prefix| == |init| * g;
    assert |group| == g;
    var lo, hi := k * g, k * g + g;
    if k == |args| - 1 {
      assert lo == |prefix|;
      SliceOfAppendRight(prefix, group);
    } else {
      EntryCodeGroupAt(className, tracker, init, k);
      GroupEndBound(k, |init|, g);
      assert hi <= |prefix|;
      SliceOfAppendLeft(prefix, group, lo, hi);
      assert init[k] == args[k];
    }
  }

  lemma SliceOfAppendLeft(a: seq<Insn>, b: seq<Insn>, lo: nat, hi: nat)
    requires lo <= hi <= |a|
    ensures (a + b)[lo..hi] == a[lo..hi]
  {
  }

  lemma SliceOfAppendRight(a: seq<Insn>, b: seq<Insn>)
    ensures (a + b)[|a|..] == b
  {
  }

  /** Group k of n groups of size g ends within the n groups. */
  lemma GroupEndBound(k: nat, n: nat, g: nat)
    requires k < n
    ensures k * g + g <= n * g
  {
    var d: nat := n - k - 1;
    assert n * g == k * g + g + d * g;
  }

  /**
   * The shape of group `k`: a load of slot k+1, the box of parameter k's own
   * type, then the call chosen by the class name.
   */
  lemma EntryCodeShape(className: Option<string>, tracker: string, args: seq<TypeTag>, k: nat)
    requires k < |args|
    ensures var code, base := EntryCode(className, tracker, args), k * GroupSize(className);
      && base + GroupSize(className) <= |code|
      && code[base] == VarInsn(ALOAD, k + 1)
      && code[base + 1] == BoxInsn(args[k])
      && (IsNested(className) ==>
            code[base + 2] == MethodInsn(INVOKESTATIC, tracker, "c", VIEW_DESCRIPTOR, false))
      && (className.Some? && !IsNested(className) ==>
            code[base + 2] == LdcInsn(className.value)
            && code[base + 3] == MethodInsn(INVOKESTATIC, tracker, "c", VIEW_STRING_DESCRIPTOR, false))
      && (className.None? ==> GroupSize(className) == 2)
  {
    var code, g := EntryCode(className, tracker, args), GroupSize(className);
    EntryCodeGroupAt(className, tracker, args, k);
    var group := code[k * g..k * g + g];
    assert code[k * g] == group[0];
    assert code[k * g + 1] == group[1];
    if g > 2 {
      assert code[k * g + 2] == group[2];
    }
    if g > 3 {
      assert code[k * g + 3] == group[3];
    }
  }

  lemma AppendAssociative(a: seq<Insn>, b: seq<Insn>, c: seq<Insn>)
    ensures (a + b) + c == a + (b + c)
  {
  }

  /** The number of method calls in a stretch of code. */
  function Calls(code: seq<Insn>): nat {
    if code == [] then 0 else (if code[0].MethodInsn? then 1 else 0) + Calls(code[1..])
  }

  lemma {:induction false} CallsAppend(a: seq<Insn>, b: seq<Insn>)
    ensures Calls(a + b) == Calls(a) + Calls(b)
  {
    if a == [] {
      assert a + b == b;
    } else {
      assert (a + b)[0] == a[0];
      assert (a + b)[1..] == a[1..] + b;
      CallsAppend(a[1..], b);
    }
  }

  /** The tracker is called once per parameter, or never when the class name is null. */
  lemma {:induction false} EntryCodeCalls(className: Option<string>, tracker: string, args: seq<TypeTag>)
    ensures Calls(EntryCode(className, tracker, args)) == if className.Some? then |args| else 0
  {
    if args != [] {
      var init := args[..|args| - 1];
      var group := Group(className, tracker, |args| - 1, args[|args| - 1]);
      EntryCodeCalls(className, tracker, init);
      CallsAppend(EntryCode(className, tracker, init), group);
      var load := [VarInsn(ALOAD, |args|), BoxInsn(args[|args| - 1])];
      var call := TrackerCall(className, tracker);
      CallsAppend(load, call);
      assert Calls(load) == 0 by {
        assert load[1..][1..] == [];
      }
      if IsNested(className) {
        assert call[1..] == [];
      } else if className.Some? {
        assert call[1..][1..] == [];
        assert Calls(call[1..]) == 1;
      }
    }
  }

  /**
   * Every group of a method uses the same call form: each call is the one the
   * class name selects, and each pushed constant is the class name, unchanged.
   */
  lemma {:induction false} EntryCodeUniform(className: Option<string>, tracker: string, args: seq<TypeTag>)
    ensures forall insn :: insn in EntryCode(className, tracker, args) && insn.MethodInsn? ==>
              className.Some?
              && insn == MethodInsn(INVOKESTATIC, tracker, "c",
                                    if IsNested(className) then VIEW_DESCRIPTOR else VIEW_STRING_DESCRIPTOR, false)
    ensures forall insn :: insn in EntryCode(className, tracker, args) && insn.LdcInsn? ==>
              className.Some? && !IsNested(className) && insn.constant == className.value
    ensures forall insn :: insn in EntryCode(className, tracker, args) && insn.VarInsn? ==> insn.opcode == ALOAD
  {
    if args != [] {
      EntryCodeUniform(className, tracker, args[..|args| - 1]);
    }
  }

  /** The downstream visitor `mv`: the instructions visited so far, in order. */
  class MethodWriter {
    var code: seq<Insn>

    constructor ()
      ensures code == []
    {
      code := [];
    }

    method VisitVarInsn(opcode: int, slot: nat)
      modifies this
      ensures code == old(code) + [VarInsn(opcode, slot)]
    {
      code := code + [VarInsn(opcode, slot)];
    }

    method VisitLdcInsn(constant: string)
      modifies this
      ensures code == old(code) + [LdcInsn(constant)]
    {
      code := code + [LdcInsn(constant)];
    }

    method VisitMethodInsn(opcode: int, owner: string, name: string, descriptor: string, isInterface: bool)
      modifies this
      ensures code == old(code) + [MethodInsn(opcode, owner, name, descriptor, isInterface)]
    {
      code := code + [MethodInsn(opcode, owner, name, descriptor, isInterface)];
    }
  }

  /** The visitor that instruments one method of class `className`. */
  class TrackMethodVisitor {
    const className: Option<string>
    /** The tracker class the calls go to. */
    const tracker: string
    const mv: MethodWriter
    /** The argument types of the method's descriptor. */
    const argumentArrays: seq<TypeTag>

    constructor (className: Option<string>, tracker: string, mv: MethodWriter, argumentTypes: seq<TypeTag>)
      ensures this.className == className && this.tracker == tracker
      ensures this.mv == mv && argumentArrays == argumentTypes
    {
      this.className := className;
      this.tracker := tracker;
      this.mv := mv;
      this.argumentArrays := argumentTypes;
    }

    /**
     * `box(type)`: the boxing conversion of the value on the stack, as one
     * abstract instruction. For object and array types ASM emits nothing there;
     * the abstract instruction then stands for that empty expansion.
     */
    method Box(t: TypeTag)
      modifies mv
      ensures mv.code == old(mv.code) + [BoxInsn(t)]
    {
      mv.code := mv.code + [BoxInsn(t)];
    }

    /** One pass of the loop in `onMethodEnter`: the group of parameter `i`, of type `t`. */
    method EmitGroup(i: nat, t: TypeTag)
      modifies mv
      ensures mv.code == old(mv.code) + Group(className, tracker, i, t)
    {
      var index := i + 1;
      mv.VisitVarInsn(ALOAD, index);
      Box(t);
      ghost var loaded := mv.code;
      if className.Some? && '$' in className.value {
        mv.VisitMethodInsn(INVOKESTATIC, tracker, "c", VIEW_DESCRIPTOR, false);
      } else if className.Some? {
        mv.VisitLdcInsn(className.value);
        mv.VisitMethodInsn(INVOKESTATIC, tracker, "c", VIEW_STRING_DESCRIPTOR, false);
      }
      assert mv.code == loaded + TrackerCall(className, tracker);
      AppendAssociative(old(mv.code), [VarInsn(ALOAD, index), BoxInsn(t)], TrackerCall(className, tracker));
    }

    /** `onMethodEnter`: one group of instructions per parameter, appended to `mv`. */
    method OnMethodEnter()
      modifies mv
      ensures mv.code == old(mv.code) + EntryCode(className, tracker, argumentArrays)
    {
      ghost var initial := mv.code;
      var i := 0;
      while i < |argumentArrays|
        invariant 0 <= i <= |argumentArrays|
        invariant mv.code == initial + EntryCode(className, tracker, argumentArrays[..i])
      {
        EmitGroup(i, argumentArrays[i]);
        EntryCodeTake(className, tracker, argumentArrays, i);
        AppendAssociative(initial, EntryCode(className, tracker, argumentArrays[..i]), Group(className, tracker, i, argumentArrays[i]));
        i := i + 1;
      }
      assert argumentArrays[..i] == argumentArrays;
    }
  }
}
