// AvsResponse of the legacy client: the JSON part of a reply plus a map from
// content id to attachment bytes, filled in place by the senders.
module LegacyResponse {
  import opened Common

  class AvsResponse {
    /** The JSON part the response was built from (its reader never changes). */
    const json: Bytes
    /** Content id (null allowed, as HashMap allows it) to attachment. */
    var audio: map<Option<string>, Bytes>

    /** A new response holds the given JSON and no attachments. */
    constructor (json: Bytes)
      ensures this.json == json && audio == map[]
    {
      this.json := json;
      audio := map[];
    }

    /** addAudio: the id now maps to the data; every other id is unchanged. */
    method AddAudio(cid: Option<string>, data: Bytes)
      modifies this
      ensures audio == old(audio)[cid := data]
    {
      audio := audio[cid := data];
    }

    function GetJson(): (j: Bytes)
      ensures j == json
    {
      json
    }

    function GetAudio(): (m: map<Option<string>, Bytes>)
      reads this
      ensures m == audio
    {
      audio
    }
  }

  /** Two attachments under one id: the later one is kept. */
  method AddAudioTwice(r: AvsResponse, cid: Option<string>, first: Bytes, second: Bytes)
    modifies r
    ensures r.audio.Keys == old(r.audio.Keys) + {cid}
    ensures r.GetAudio()[cid] == second
  {
    r.AddAudio(cid, first);
    r.AddAudio(cid, second);
  }
}
