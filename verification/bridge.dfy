/**
 * The E1.31 to Hue bridge object: it selects an entertainment area, owns the
 * streaming service for it and translates every received DMX packet into
 * colour pushes on that service.
 */
module Bridge {
  import opened Wrappers
  import opened Translator
  import opened AreaSelection

  /** The streaming service, seen only through the inputs it has been handed, in order. */
  class Streaming {
    var inputs: seq<Push>

    constructor ()
      ensures inputs == []
    {
      inputs := [];
    }

    /** `set_input`: hand one colour tuple to the stream. */
    method SetInput(p: Push)
      modifies this
      ensures inputs == old(inputs) + [p]
    {
      inputs := inputs + [p];
    }
  }

  datatype BridgeError = AreaNotFound(requested: string)

  class HueEntertainmentBridge {
    const universe: int
    const config: EntertainmentConfig
    const areaName: string
    const numLights: nat
    const streaming: Streaming
    var packetCount: nat

    constructor (selected: Selection, universe: int)
      ensures this.universe == universe
      ensures config == selected.config && areaName == selected.areaName
      ensures numLights == |selected.config.channels|
      ensures packetCount == 0
      ensures fresh(streaming) && streaming.inputs == []
    {
      this.universe := universe;
      config := selected.config;
      areaName := selected.areaName;
      numLights := |selected.config.channels|;
      streaming := new Streaming();
      packetCount := 0;
    }

    /**
     * The bridge constructor: select the area among the catalog's
     * configurations and fail, before any streaming service exists, when none
     * matches. The receiver it starts is not part of this model.
     */
    static method Initialize(configs: seq<(string, EntertainmentConfig)>, requested: string, universe: int)
      returns (r: Result<HueEntertainmentBridge, BridgeError>)
      ensures r.Failure? <==> forall i :: 0 <= i < |configs| ==> !KeyMatches(configs[i].0, requested)
      ensures r.Failure? ==> r.error == AreaNotFound(requested)
      ensures r.Success? ==>
                && fresh(r.value) && fresh(r.value.streaming)
                && r.value.universe == universe
                && r.value.areaName == requested
                && r.value.packetCount == 0 && r.value.streaming.inputs == []
                && exists i :: IsFirstMatch(configs, requested, i)
                                 && r.value.config == configs[i].1
                                 && r.value.numLights == |configs[i].1.channels|
    {
      var selected := SelectArea(configs, requested);
      if selected.None? {
        return Failure(AreaNotFound(requested));
      }
      var b := new HueEntertainmentBridge(selected.value, universe);
      r := Success(b);
    }

    /**
     * The packet callback: count the packet, then push every light whose
     * three-channel block the payload holds, in ascending light order.
     */
    method OnDmxData(dmx: seq<int>)
      modifies this, streaming
      ensures packetCount == old(packetCount) + 1
      ensures streaming.inputs == old(streaming.inputs) + Translate(dmx, numLights)
    {
      packetCount := packetCount + 1;
      for idx := 0 to numLights
        invariant streaming.inputs == old(streaming.inputs) + Translate(dmx, idx)
        invariant packetCount == old(packetCount) + 1
      {
        var channelOffset := idx * 3;
        if |dmx| >= channelOffset + 3 {
          var r, g, b := dmx[channelOffset], dmx[channelOffset + 1], dmx[channelOffset + 2];
          streaming.SetInput(Push(Normalize(r), Normalize(g), Normalize(b), idx));
        }
      }
    }
  }
}
