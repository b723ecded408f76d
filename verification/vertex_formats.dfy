/** The primitive modes of the rendering library's `VertexFormat.Mode`. */
module VertexFormats {

  datatype Mode =
    | Lines
    | LineStrip
    | DebugLines
    | DebugLineStrip
    | Triangles
    | TriangleStrip
    | TriangleFan
    | Quads
  {
    /** Vertices per primitive (`primitiveLength`), as the library defines it. */
    function PrimitiveLength(): nat {
      match this
      case Lines | LineStrip | DebugLines | DebugLineStrip => 2
      case Triangles | TriangleStrip | TriangleFan => 3
      case Quads => 4
    }
  }
}
