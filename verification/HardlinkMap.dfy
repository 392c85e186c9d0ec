/** The receiver's hard-link map (internal/receiver/decide.go lines 62-182): the
    first materialised path of each hard-link key and the secondaries waiting
    for it.  One function per critical section, and the mutable map proved
    against them. */
module HardlinkMap {
  import opened Optional

  datatype PendingLink = PendingLink(fileID: nat, rel: string)

  /** `fileKey` names the key each primary was chosen for; `seen` the keys that
      have a primary this session. */
  datatype Links = Links(
    keyToPath: map<nat, string>,
    fileKey: map<nat, nat>,
    seen: set<nat>,
    pending: map<nat, seq<PendingLink>>)
  {
    function Waiting(key: nat): seq<PendingLink> {
      if key in pending then pending[key] else []
    }
  }

  const NO_LINKS := Links(map[], map[], {}, map[])

  function PathFor(h: Links, key: nat): Option<string> {
    if key in h.keyToPath then Some(h.keyToPath[key]) else None
  }

  /** A secondary parks exactly while its key is seen and not yet on disk. */
  predicate Claimable(h: Links, key: nat) {
    key in h.seen && key !in h.keyToPath
  }

  function Claim(h: Links, key: nat, sec: PendingLink): Links
    requires Claimable(h, key)
  {
    h.(pending := h.pending[key := h.Waiting(key) + [sec]])
  }

  function MarkPrimary(h: Links, fileID: nat, key: nat): Links {
    h.(seen := h.seen + {key}, fileKey := h.fileKey[fileID := key])
  }

  /** Retire a key: path, seen bit and parked secondaries. */
  function Retire(h: Links, key: nat): Links {
    h.(keyToPath := h.keyToPath - {key}, seen := h.seen - {key}, pending := h.pending - {key})
  }

  function Abandon(h: Links, fileID: nat): Links {
    if fileID in h.fileKey then Retire(h, h.fileKey[fileID]) else h
  }

  function Materialise(h: Links, fileID: nat, rel: string): Links {
    if fileID !in h.fileKey then h
    else
      var key := h.fileKey[fileID];
      h.(keyToPath := if key in h.keyToPath then h.keyToPath else h.keyToPath[key := rel],
         pending := h.pending - {key})
  }

  /** The secondaries abandon and registerMaterialised hand to their caller. */
  function WaitingOn(h: Links, fileID: nat): seq<PendingLink> {
    if fileID in h.fileKey then h.Waiting(h.fileKey[fileID]) else []
  }

  class SharedLinks {
    var keyToPath: map<nat, string>
    var fileKey: map<nat, nat>
    var seen: set<nat>
    var pending: map<nat, seq<PendingLink>>

    constructor ()
      ensures View() == NO_LINKS
    {
      keyToPath, fileKey, seen, pending := map[], map[], {}, map[];
    }

    function View(): Links
      reads this
    {
      Links(keyToPath, fileKey, seen, pending)
    }

    method LookUp(key: nat) returns (p: Option<string>)
      ensures p == PathFor(View(), key)
    {
      if key in keyToPath {
        return Some(keyToPath[key]);
      }
      return None;
    }

    method ClaimSecondary(key: nat, fileID: nat, rel: string) returns (parked: bool)
      modifies this
      ensures parked == Claimable(old(View()), key)
      ensures View() == if parked then Claim(old(View()), key, PendingLink(fileID, rel)) else old(View())
    {
      if key !in seen {
        return false;
      }
      if key in keyToPath {
        return false;
      }
      pending := pending[key := (if key in pending then pending[key] else []) + [PendingLink(fileID, rel)]];
      return true;
    }

    method BecomePrimary(fileID: nat, key: nat)
      modifies this
      ensures View() == MarkPrimary(old(View()), fileID, key)
    {
      seen := seen + {key};
      fileKey := fileKey[fileID := key];
    }

    method Clear(key: nat) returns (orphans: seq<PendingLink>)
      modifies this
      ensures View() == Retire(old(View()), key)
      ensures orphans == old(View()).Waiting(key)
    {
      keyToPath := keyToPath - {key};
      seen := seen - {key};
      orphans := if key in pending then pending[key] else [];
      pending := pending - {key};
    }

    method AbandonPrimary(fileID: nat) returns (orphans: seq<PendingLink>)
      modifies this
      ensures View() == Abandon(old(View()), fileID)
      ensures orphans == WaitingOn(old(View()), fileID)
    {
      if fileID !in fileKey {
        return [];
      }
      var key := fileKey[fileID];
      orphans := if key in pending then pending[key] else [];
      pending := pending - {key};
      keyToPath := keyToPath - {key};
      seen := seen - {key};
    }

    method RegisterMaterialised(fileID: nat, rel: string) returns (waiting: seq<PendingLink>)
      modifies this
      ensures View() == Materialise(old(View()), fileID, rel)
      ensures waiting == WaitingOn(old(View()), fileID)
    {
      if fileID !in fileKey {
        return [];
      }
      var key := fileKey[fileID];
      if key !in keyToPath {
        keyToPath := keyToPath[key := rel];
      }
      waiting := if key in pending then pending[key] else [];
      pending := pending - {key};
    }
  }
}
