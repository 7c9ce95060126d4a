/** Gsw/Common/RendererFactory.swift: the renderer chosen by name. The
    renderers themselves build GPU scenes and are represented by their kind. */
module RendererFactories {
  import opened Wrappers

  datatype RendererKind = SimpleRenderer | SimRenderer1

  /** `createRenderer(rendererName:)`: no name means the simple renderer;
      any name other than the two known ones is fatal. */
  function CreateRenderer(rendererName: Option<string>): (r: Result<RendererKind>)
    ensures r.Ok? <==> rendererName.None? || rendererName.value == "Simple" || rendererName.value == "Sim1"
    ensures r.Ok? && r.value.SimRenderer1? ==> rendererName == Some("Sim1")
  {
    if rendererName.None? then Ok(SimpleRenderer)
    else match rendererName.value
      case "Simple" => Ok(SimpleRenderer)
      case "Sim1" => Ok(SimRenderer1)
      case _ => Fatal("Unsupported renderer: " + rendererName.value)
  }

  /** The name under which each renderer is selected. */
  function NameOf(kind: RendererKind): (name: string)
    ensures |name| > 0
  {
    match kind
    case SimpleRenderer => "Simple"
    case SimRenderer1 => "Sim1"
  }

  /** Every renderer is reachable by its name, and only by it (or, for the
      simple renderer, by giving no name). */
  lemma CreateByName(kind: RendererKind, rendererName: Option<string>)
    ensures CreateRenderer(Some(NameOf(kind))) == Ok(kind)
    ensures CreateRenderer(rendererName) == Ok(kind) ==>
      rendererName == Some(NameOf(kind)) || (kind.SimpleRenderer? && rendererName.None?)
  {
  }
}
