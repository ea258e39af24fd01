/** Leaflet's LayerGroup as the marker builders use it: a list of markers
    that can be cleared and appended to. */
module MarkerLayer {

  class Layer<M> {
    var markers: seq<M>

    constructor ()
      ensures markers == []
    {
      markers := [];
    }

    /** LayerGroup.clearLayers: removes every marker. */
    method ClearLayers()
      modifies this
      ensures markers == []
    {
      markers := [];
    }

    /** Marker.addTo(layer): appends one marker. */
    method AddLayer(m: M)
      modifies this
      ensures markers == old(markers) + [m]
    {
      markers := markers + [m];
    }
  }
}
