/** The Shadertoy shader definition (the JSON document the material is built
    from), reduced to the fields the core reads. */
module Definition {
  import opened Wrappers

  /** One entry of a pass's `inputs`: the stream id, its Shadertoy content
      type (`ctype`) and the channel slot it is bound to. */
  datatype InputDescriptor = InputDescriptor(id: string, ctype: string, channel: int)

  /** One entry of a pass's `outputs`. */
  datatype OutputDescriptor = OutputDescriptor(id: string, outputType: string)

  /** One entry of `renderpass`. */
  datatype PassDefinition = PassDefinition(
    passType: string,
    inputs: seq<InputDescriptor>,
    outputs: seq<OutputDescriptor>,
    code: string)

  datatype ShaderDefinition = ShaderDefinition(info: string, renderpass: seq<PassDefinition>)

  /** The material options the core reads: `opts.width` and `opts.height`. */
  datatype Options = Options(width: Option<int>, height: Option<int>)
}
