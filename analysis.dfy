/**
 * The dictionary update in `get_audio_analysis` (methods.py): the bulky
 * timing arrays and the metadata block are popped from the audio-analysis
 * response before it is flattened into one row.
 */
module Analysis {
  import opened Frames

  /** The keys removed from every analysis response, in the order they are popped. */
  const RemovedKeys: seq<string> := ["bars", "beats", "segments", "tatums", "meta"]

  /** The response without the removed keys; every other entry as it was. */
  function Stripped<J>(response: map<string, J>): (r: map<string, J>)
    ensures forall k :: k in r <==> k in response && k !in RemovedKeys
    ensures forall k :: k in r ==> r[k] == response[k]
  {
    map k | k in response && k !in RemovedKeys :: response[k]
  }

  /**
   * Stripping is idempotent, and a response that holds none of the removed
   * keys passes through unchanged: an absent key is not an error.
   */
  lemma StrippedIdempotent<J>(response: map<string, J>)
    ensures Stripped(Stripped(response)) == Stripped(response)
    ensures (forall k :: k in RemovedKeys ==> k !in response) ==> Stripped(response) == response
  {
  }

  /** An audio-analysis response, a dictionary updated in place. */
  class AudioAnalysis<J> {
    var fields: map<string, J>

    constructor (response: map<string, J>)
      ensures fields == response
    {
      fields := response;
    }

    /** `pop(key, None)`: removes `key` if present and returns its value; no error when absent. */
    method Pop(key: string) returns (removed: Option<J>)
      modifies this
      ensures removed == if key in old(fields) then Some(old(fields)[key]) else None
      ensures fields == old(fields) - {key}
    {
      if key in fields {
        removed := Some(fields[key]);
        fields := fields - {key};
      } else {
        removed := None;
        assert fields - {key} == fields;
      }
    }

    /** Pops each of the removed keys in turn. */
    method StripBulkyKeys()
      modifies this
      ensures fields == Stripped(old(fields))
    {
      for i := 0 to |RemovedKeys|
        invariant forall k :: k in fields <==> k in old(fields) && k !in RemovedKeys[..i]
        invariant forall k :: k in fields ==> fields[k] == old(fields)[k]
      {
        var _ := Pop(RemovedKeys[i]);
        assert RemovedKeys[..i + 1] == RemovedKeys[..i] + [RemovedKeys[i]];
      }
      assert RemovedKeys[..|RemovedKeys|] == RemovedKeys;
    }
  }

  /**
   * `get_audio_analysis` once the response is given: strip it, then turn
   * it into a one-row frame. The flattening library is not part of this
   * model; `flatten` stands for it and for building the frame from its
   * output.
   */
  method GetAudioAnalysis<J>(response: map<string, J>, flatten: map<string, J> -> Record)
    returns (frame: Record)
    ensures frame == flatten(Stripped(response))
  {
    var analysis := new AudioAnalysis(response);
    analysis.StripBulkyKeys();
    frame := flatten(analysis.fields);
  }
}
