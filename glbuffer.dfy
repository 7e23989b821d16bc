/** The one WebGL buffer each sample creates and binds to the ARRAY_BUFFER
    bind point. Only its contents are modelled: gl.bufferData on that bind
    point replaces them as a whole. */
module GlBuffer {

  class ArrayBuffer {
    /** The numbers of the last upload (a Float32Array of positions). */
    var contents: seq<real>

    /** gl.createBuffer followed by gl.bindBuffer: a buffer with no data. */
    constructor ()
      ensures contents == []
    {
      contents := [];
    }

    /** gl.bufferData(gl.ARRAY_BUFFER, new Float32Array(positions), ...):
        a full replace, nothing of the previous contents survives. */
    method BufferData(positions: seq<real>)
      modifies this
      ensures contents == positions
    {
      contents := positions;
    }
  }
}
