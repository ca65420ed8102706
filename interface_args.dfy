/**
 * The parsed shapes of `#[Interface]`: the interface, the methods declared on its
 * trait, and their arguments, each described by the capability records it answers.
 */
module InterfaceArgs {
  import opened Syn
  import Common

  /** An argument of an interface method. */
  datatype InterfaceMethodArg = InterfaceMethodArg(arg: Common.ArgImpl)

  /** A method declared on the interface trait: its field capabilities, output type and arguments. */
  datatype InterfaceMethod = InterfaceMethod(
    field: Common.FieldImpl,
    outputType: Type,
    args: seq<InterfaceMethodArg>)

  /** The interface itself: its object capabilities and its methods. */
  datatype Interface = Interface(caps: Common.ObjectImpl, methods: seq<InterfaceMethod>)
}
