/** The core-server directory (service/core_server_redis_service.go): the
    Redis hash "core-servers" maps a server key to a JSON payload holding
    the server's IP and SSH port.  The hash is a map, the Redis client an
    optional value whose read may fail, and json.Unmarshal of a payload a
    decoding function given by the caller. */
module CoreServers {
  import opened Wrappers
  import opened GoStrings

  const CoreServersHashKey: string := "core-servers"

  datatype CoreServer = CoreServer(key: string, ip: string, port: int)

  /** The decoded payload (coreServerValue). */
  datatype CoreServerValue = CoreServerValue(ip: string, port: int)

  /** config.RedisClient when it is set: the hash's fields, and the failure
      of the read itself (None when the read succeeds). */
  datatype RedisClient = RedisClient(hash: map<string, string>, fault: Option<string>)

  /** json.Unmarshal of a payload into coreServerValue: the value or the
      decoding error. */
  type Decoder = string -> Result<CoreServerValue>

  // ---------------------------------------------------------------- key order

  /** Strictly ascending: sorted, and each key once. */
  predicate Ascending(keys: seq<string>)
  {
    forall i, j :: 0 <= i < j < |keys| ==> Below(keys[i], keys[j])
  }

  /** Put one more key into an ascending list. */
  function Insert(keys: seq<string>, k: string): (r: seq<string>)
    requires Ascending(keys) && k !in keys
    ensures Ascending(r)
    ensures |r| == |keys| + 1
    ensures forall x :: x in r <==> x in keys || x == k
  {
    if keys == [] then [k]
    else if Below(k, keys[0]) then
      forall j | 0 < j < |keys| ensures Below(k, keys[j]) {
        BelowTransitive(k, keys[0], keys[j]);
      }
      [k] + keys
    else
      BelowTotal(k, keys[0]);
      var rest := Insert(keys[1..], k);
      assert forall x :: x in rest ==> Below(keys[0], x) by {
        forall x | x in rest ensures Below(keys[0], x) {
          if x != k {
            var j :| 0 <= j < |keys[1..]| && keys[1..][j] == x;
            assert keys[j + 1] == x;
          }
        }
      }
      assert forall j :: 0 <= j < |rest| ==> rest[j] in rest;
      [keys[0]] + rest
  }

  /** The key slice of ListCoreServers: every field of the hash once, in
      ascending order. */
  method SortedKeys(hash: map<string, string>) returns (keys: seq<string>)
    ensures Ascending(keys)
    ensures forall k :: k in keys <==> k in hash
  {
    keys := [];
    var remaining := hash.Keys;
    while remaining != {}
      invariant Ascending(keys)
      invariant forall k :: k in keys ==> k in hash && k !in remaining
      invariant forall k :: k in hash ==> k in keys || k in remaining
      invariant remaining <= hash.Keys
      decreases |remaining|
    {
      var k :| k in remaining;
      keys := Insert(keys, k);
      remaining := remaining - {k};
    }
  }

  // ---------------------------------------------------------------- one server

  /** GetCoreServerByKey: no client is reported first, then a blank key;
      a missing field or a blank payload is "not found"; a payload that
      does not decode is reported with the key. */
  function GetCoreServerByKey(client: Option<RedisClient>, key: string, decode: Decoder): (r: Result<CoreServer>)
    ensures client.None? ==> r == Err(RedisNotInitialized)
    ensures client.Some? && IsBlank(key) ==> r == Err(CoreServerKeyRequired)
    ensures client.Some? && !IsBlank(key) && client.value.fault.None?
            && (TrimSpace(key) !in client.value.hash || IsBlank(client.value.hash[TrimSpace(key)]))
            ==> r == Err(CoreServerNotFound)
    ensures r.Ok? ==> client.Some? && client.value.fault.None? && TrimSpace(key) in client.value.hash
    ensures r.Ok? ==> r.value.key == TrimSpace(key) && r.value.key != ""
    ensures r.Ok? ==> decode(TrimSpace(client.value.hash[TrimSpace(key)])) == Ok(CoreServerValue(r.value.ip, r.value.port))
  {
    if client.None? then Err(RedisNotInitialized)
    else
      var trimmedKey := TrimSpace(key);
      if trimmedKey == "" then Err(CoreServerKeyRequired)
      else if client.value.fault.Some? then
        Err(Wrapped("hget " + CoreServersHashKey + " failed (key=" + trimmedKey + "): ", Foreign(client.value.fault.value), ""))
      else if trimmedKey !in client.value.hash then Err(CoreServerNotFound)
      else
        var payload := TrimSpace(client.value.hash[trimmedKey]);
        if payload == "" then Err(CoreServerNotFound)
        else match decode(payload)
          case Err(e) => Err(Wrapped("parse core server failed (key=" + trimmedKey + "): ", e, ""))
          case Ok(value) => Ok(CoreServer(trimmedKey, value.ip, value.port))
  }

  /** The payload decides the server: a key whose payload decodes is found,
      and carries the decoded IP and port. */
  lemma GetDecodedServer(c: RedisClient, key: string, decode: Decoder)
    requires c.fault.None? && !IsBlank(key) && TrimSpace(key) in c.hash
    requires !IsBlank(c.hash[TrimSpace(key)]) && decode(TrimSpace(c.hash[TrimSpace(key)])).Ok?
    ensures GetCoreServerByKey(Some(c), key, decode).Ok?
    ensures var v := decode(TrimSpace(c.hash[TrimSpace(key)])).value;
      GetCoreServerByKey(Some(c), key, decode) == Ok(CoreServer(TrimSpace(key), v.ip, v.port))
  {
  }

  // ---------------------------------------------------------------- the list

  /** A field of the hash that ListCoreServers reports. */
  predicate Listed(hash: map<string, string>, k: string)
  {
    k in hash && !IsBlank(hash[k])
  }

  /** A reported field whose payload does not decode. */
  predicate Malformed(hash: map<string, string>, decode: Decoder, k: string)
  {
    Listed(hash, k) && decode(TrimSpace(hash[k])).Err?
  }

  function ParseError(key: string, e: Error): Error
  {
    Wrapped("parse core server failed (key=" + key + "): ", e, "")
  }

  /** The loop of ListCoreServers over a key slice: a blank payload is
      skipped, a malformed one ends the loop with its error. */
  function Collect(hash: map<string, string>, decode: Decoder, keys: seq<string>): Result<seq<CoreServer>>
    requires forall k :: k in keys ==> k in hash
  {
    if keys == [] then Ok([])
    else match Collect(hash, decode, keys[..|keys| - 1])
      case Err(e) => Err(e)
      case Ok(xs) =>
        var key := keys[|keys| - 1];
        var raw := TrimSpace(hash[key]);
        if raw == "" then Ok(xs)
        else match decode(raw)
          case Err(e) => Err(ParseError(key, e))
          case Ok(v) => Ok(xs + [CoreServer(key, v.ip, v.port)])
  }

  /** Once a payload is refused, the keys after it do not matter. */
  lemma {:induction false} CollectErrorPersists(hash: map<string, string>, decode: Decoder, keys: seq<string>, n: nat)
    requires forall k :: k in keys ==> k in hash
    requires n <= |keys| && Collect(hash, decode, keys[..n]).Err?
    ensures Collect(hash, decode, keys) == Collect(hash, decode, keys[..n])
    decreases |keys| - n
  {
    if n < |keys| {
      var init := keys[..|keys| - 1];
      assert init[..n] == keys[..n];
      CollectErrorPersists(hash, decode, init, n);
    } else {
      assert keys[..n] == keys;
    }
  }

  /** What the loop keeps: each reported server is a listed key of the
      slice with its decoded payload, every listed key of the slice is
      reported, and an ascending slice gives an ascending list. */
  lemma {:induction false} CollectEntries(hash: map<string, string>, decode: Decoder, keys: seq<string>)
    requires forall k :: k in keys ==> k in hash
    requires Collect(hash, decode, keys).Ok?
    ensures forall i :: 0 <= i < |Collect(hash, decode, keys).value| ==>
              Collect(hash, decode, keys).value[i].key in keys
              && Listed(hash, Collect(hash, decode, keys).value[i].key)
              && decode(TrimSpace(hash[Collect(hash, decode, keys).value[i].key]))
                 == Ok(CoreServerValue(Collect(hash, decode, keys).value[i].ip, Collect(hash, decode, keys).value[i].port))
    ensures forall k :: k in keys && Listed(hash, k) ==>
              exists i :: 0 <= i < |Collect(hash, decode, keys).value| && Collect(hash, decode, keys).value[i].key == k
    ensures forall k :: k in keys ==> !Malformed(hash, decode, k)
    ensures Ascending(keys) ==>
              forall i, j :: 0 <= i < j < |Collect(hash, decode, keys).value| ==>
                Below(Collect(hash, decode, keys).value[i].key, Collect(hash, decode, keys).value[j].key)
  {
    if keys != [] {
      var init := keys[..|keys| - 1];
      var last := keys[|keys| - 1];
      CollectLast(hash, decode, keys);
      CollectEntries(hash, decode, init);
      var xs := Collect(hash, decode, init).value;
      var r := Collect(hash, decode, keys).value;
      assert forall k :: k in keys ==> k in init || k == last;
      StepReported(hash, decode, keys, xs, r);
      StepCovers(hash, decode, keys, xs, r);
      StepAscending(hash, decode, keys, xs, r);
    }
  }

  /** The shape of one turn of the loop: r is xs with the last key's
      server, if any, appended. */
  ghost predicate OneMore(hash: map<string, string>, decode: Decoder, keys: seq<string>,
                          xs: seq<CoreServer>, r: seq<CoreServer>)
  {
    && keys != [] && (forall k :: k in keys ==> k in hash)
    && !Malformed(hash, decode, keys[|keys| - 1])
    && r == xs + Tail(hash, decode, keys[|keys| - 1])
  }

  /** The server a key with a well-formed payload adds: none when the
      payload is blank. */
  function Tail(hash: map<string, string>, decode: Decoder, key: string): (r: seq<CoreServer>)
    requires key in hash && !Malformed(hash, decode, key)
    ensures |r| <= 1 && (r != [] <==> Listed(hash, key))
    ensures r != [] ==> r[0].key == key
                        && decode(TrimSpace(hash[key])) == Ok(CoreServerValue(r[0].ip, r[0].port))
  {
    if Listed(hash, key) then
      var v := decode(TrimSpace(hash[key])).value;
      [CoreServer(key, v.ip, v.port)]
    else []
  }

  lemma StepReported(hash: map<string, string>, decode: Decoder, keys: seq<string>,
                     xs: seq<CoreServer>, r: seq<CoreServer>)
    requires OneMore(hash, decode, keys, xs, r)
    requires forall i :: 0 <= i < |xs| ==>
               xs[i].key in keys[..|keys| - 1] && Listed(hash, xs[i].key)
               && decode(TrimSpace(hash[xs[i].key])) == Ok(CoreServerValue(xs[i].ip, xs[i].port))
    ensures forall i :: 0 <= i < |r| ==>
              r[i].key in keys && Listed(hash, r[i].key)
              && decode(TrimSpace(hash[r[i].key])) == Ok(CoreServerValue(r[i].ip, r[i].port))
  {
    forall i | 0 <= i < |r|
      ensures r[i].key in keys && Listed(hash, r[i].key)
              && decode(TrimSpace(hash[r[i].key])) == Ok(CoreServerValue(r[i].ip, r[i].port))
    {
      if i < |xs| {
        assert r[i] == xs[i];
        var j :| 0 <= j < |keys| - 1 && keys[..|keys| - 1][j] == xs[i].key;
        assert keys[j] == xs[i].key;
      } else {
        assert r[i] == Tail(hash, decode, keys[|keys| - 1])[0];
      }
    }
  }

  lemma StepCovers(hash: map<string, string>, decode: Decoder, keys: seq<string>,
                   xs: seq<CoreServer>, r: seq<CoreServer>)
    requires OneMore(hash, decode, keys, xs, r)
    requires forall k :: k in keys[..|keys| - 1] && Listed(hash, k) ==> exists i :: 0 <= i < |xs| && xs[i].key == k
    ensures forall k :: k in keys && Listed(hash, k) ==> exists i :: 0 <= i < |r| && r[i].key == k
  {
    var init, last := keys[..|keys| - 1], keys[|keys| - 1];
    forall k | k in keys && Listed(hash, k)
      ensures exists i :: 0 <= i < |r| && r[i].key == k
    {
      if k == last {
        assert r[|xs|] == Tail(hash, decode, last)[0];
      } else {
        var j :| 0 <= j < |keys| && keys[j] == k;
        assert init[j] == k;
        var i :| 0 <= i < |xs| && xs[i].key == k;
        assert r[i] == xs[i];
      }
    }
  }

  lemma StepAscending(hash: map<string, string>, decode: Decoder, keys: seq<string>,
                      xs: seq<CoreServer>, r: seq<CoreServer>)
    requires OneMore(hash, decode, keys, xs, r)
    requires forall i :: 0 <= i < |xs| ==> xs[i].key in keys[..|keys| - 1]
    requires Ascending(keys[..|keys| - 1]) ==>
               forall i, j :: 0 <= i < j < |xs| ==> Below(xs[i].key, xs[j].key)
    ensures Ascending(keys) ==> forall i, j :: 0 <= i < j < |r| ==> Below(r[i].key, r[j].key)
  {
    var init, last := keys[..|keys| - 1], keys[|keys| - 1];
    if Ascending(keys) {
      assert Ascending(init);
      forall i | 0 <= i < |xs| ensures Below(xs[i].key, last) {
        assert xs[i].key in init;
        var j :| 0 <= j < |init| && init[j] == xs[i].key;
        assert keys[j] == init[j];
      }
      forall i, j | 0 <= i < j < |r| ensures Below(r[i].key, r[j].key) {
        assert r[i] == xs[i];
        if j < |xs| {
          assert r[j] == xs[j];
        } else {
          assert r[j] == Tail(hash, decode, last)[0];
        }
      }
    }
  }

  /** The last key of the slice adds its server, when its payload is not
      blank, to what the slice without it collected. */
  lemma CollectLast(hash: map<string, string>, decode: Decoder, keys: seq<string>)
    requires forall k :: k in keys ==> k in hash
    requires keys != [] && Collect(hash, decode, keys).Ok?
    ensures var init, last := keys[..|keys| - 1], keys[|keys| - 1];
      && Collect(hash, decode, init).Ok? && !Malformed(hash, decode, last)
      && Collect(hash, decode, keys).value == Collect(hash, decode, init).value + Tail(hash, decode, last)
  {
  }

  /** The first malformed payload of a slice at index j, reported as such. */
  predicate FailsFirstAt(hash: map<string, string>, decode: Decoder, keys: seq<string>, j: int)
    requires forall k :: k in keys ==> k in hash
    requires Collect(hash, decode, keys).Err?
  {
    && 0 <= j < |keys| && Malformed(hash, decode, keys[j])
    && Collect(hash, decode, keys).error == ParseError(keys[j], decode(TrimSpace(hash[keys[j]])).error)
    && forall j' :: 0 <= j' < j ==> !Malformed(hash, decode, keys[j'])
  }

  /** A slice with no malformed payload collects without error. */
  lemma CollectOkClean(hash: map<string, string>, decode: Decoder, keys: seq<string>)
    requires forall k :: k in keys ==> k in hash
    requires Collect(hash, decode, keys).Ok?
    ensures forall j :: 0 <= j < |keys| ==> !Malformed(hash, decode, keys[j])
  {
    CollectEntries(hash, decode, keys);
  }

  /** An error already in the slice without its last key stays the same. */
  lemma CollectErrorFromInit(hash: map<string, string>, decode: Decoder, keys: seq<string>, j: int)
    requires forall k :: k in keys ==> k in hash
    requires keys != [] && Collect(hash, decode, keys[..|keys| - 1]).Err?
    requires FailsFirstAt(hash, decode, keys[..|keys| - 1], j)
    ensures Collect(hash, decode, keys).Err? && FailsFirstAt(hash, decode, keys, j)
  {
    var init := keys[..|keys| - 1];
    assert Collect(hash, decode, keys) == Collect(hash, decode, init);
    assert keys[j] == init[j];
    assert forall j' :: 0 <= j' < j ==> keys[j'] == init[j'];
  }

  /** An error that appears only with the last key is that key's. */
  lemma CollectErrorAtLast(hash: map<string, string>, decode: Decoder, keys: seq<string>)
    requires forall k :: k in keys ==> k in hash
    requires keys != [] && Collect(hash, decode, keys[..|keys| - 1]).Ok?
    requires Collect(hash, decode, keys).Err?
    ensures FailsFirstAt(hash, decode, keys, |keys| - 1)
  {
    var init := keys[..|keys| - 1];
    CollectOkClean(hash, decode, init);
    assert forall j' :: 0 <= j' < |init| ==> keys[j'] == init[j'];
  }

  /** The loop fails exactly on the first malformed payload of the slice. */
  lemma {:induction false} CollectError(hash: map<string, string>, decode: Decoder, keys: seq<string>)
    requires forall k :: k in keys ==> k in hash
    requires Collect(hash, decode, keys).Err?
    ensures exists j :: FailsFirstAt(hash, decode, keys, j)
  {
    var init := keys[..|keys| - 1];
    if Collect(hash, decode, init).Err? {
      CollectError(hash, decode, init);
      var j :| FailsFirstAt(hash, decode, init, j);
      CollectErrorFromInit(hash, decode, keys, j);
    } else {
      CollectErrorAtLast(hash, decode, keys);
    }
  }

  /** ListCoreServers: every field with a non-blank payload, in ascending
      key order, each with its decoded IP and port; the first malformed
      payload, in that order, aborts the whole list. */
  method ListCoreServers(client: Option<RedisClient>, decode: Decoder) returns (r: Result<seq<CoreServer>>)
    ensures client.None? ==> r == Err(RedisNotInitialized)
    ensures client.Some? && client.value.fault.Some?
            ==> r == Err(Wrapped("hgetall " + CoreServersHashKey + " failed: ", Foreign(client.value.fault.value), ""))
    ensures r.Ok? <==> (client.Some? && client.value.fault.None?
                        && forall k :: k in client.value.hash ==> !Malformed(client.value.hash, decode, k))
    ensures r.Ok? ==> forall i, j :: 0 <= i < j < |r.value| ==> Below(r.value[i].key, r.value[j].key)
    ensures r.Ok? ==> forall i :: 0 <= i < |r.value| ==>
              Listed(client.value.hash, r.value[i].key)
              && decode(TrimSpace(client.value.hash[r.value[i].key])) == Ok(CoreServerValue(r.value[i].ip, r.value[i].port))
    ensures r.Ok? ==> forall k :: Listed(client.value.hash, k) ==> exists i :: 0 <= i < |r.value| && r.value[i].key == k
    ensures r.Err? && client.Some? && client.value.fault.None?
            ==> exists k :: (Malformed(client.value.hash, decode, k)
                             && r.error == ParseError(k, decode(TrimSpace(client.value.hash[k])).error)
                             && forall k' :: Malformed(client.value.hash, decode, k') && k' != k ==> Below(k, k'))
  {
    if client.None? {
      return Err(RedisNotInitialized);
    }
    if client.value.fault.Some? {
      return Err(Wrapped("hgetall " + CoreServersHashKey + " failed: ", Foreign(client.value.fault.value), ""));
    }
    var rawMap := client.value.hash;
    var keys := SortedKeys(rawMap);
    r := CollectServers(rawMap, decode, keys);
    if r.Ok? {
      ListSuccess(rawMap, decode, keys);
    } else {
      ListFailure(rawMap, decode, keys);
    }
  }

  /** The loop of ListCoreServers over the sorted keys: blank payloads are
      skipped, the first malformed one ends the loop with its error. */
  method CollectServers(hash: map<string, string>, decode: Decoder, keys: seq<string>) returns (r: Result<seq<CoreServer>>)
    requires forall k :: k in keys ==> k in hash
    ensures r == Collect(hash, decode, keys)
  {
    var result: seq<CoreServer> := [];
    var i := 0;
    while i < |keys|
      invariant 0 <= i <= |keys|
      invariant Collect(hash, decode, keys[..i]) == Ok(result)
    {
      assert keys[..i + 1][..i] == keys[..i];
      var key := keys[i];
      var raw := TrimSpace(hash[key]);
      if raw == "" {
        i := i + 1;
        continue;
      }
      var value := decode(raw);
      if value.Err? {
        CollectErrorPersists(hash, decode, keys, i + 1);
        return Err(ParseError(key, value.error));
      }
      result := result + [CoreServer(key, value.value.ip, value.value.port)];
      i := i + 1;
    }
    assert keys[..i] == keys;
    r := Ok(result);
  }

  /** The success of the loop over the whole ascending key slice, stated
      over the hash. */
  lemma ListSuccess(hash: map<string, string>, decode: Decoder, keys: seq<string>)
    requires Ascending(keys) && forall k :: k in keys <==> k in hash
    requires Collect(hash, decode, keys).Ok?
    ensures var xs := Collect(hash, decode, keys).value;
      && (forall k :: k in hash ==> !Malformed(hash, decode, k))
      && (forall i, j :: 0 <= i < j < |xs| ==> Below(xs[i].key, xs[j].key))
      && (forall i :: 0 <= i < |xs| ==>
            Listed(hash, xs[i].key) && decode(TrimSpace(hash[xs[i].key])) == Ok(CoreServerValue(xs[i].ip, xs[i].port)))
      && (forall k :: Listed(hash, k) ==> exists i :: 0 <= i < |xs| && xs[i].key == k)
  {
    CollectEntries(hash, decode, keys);
  }

  /** The failure of the loop over the whole ascending key slice, stated
      over the hash. */
  lemma ListFailure(hash: map<string, string>, decode: Decoder, keys: seq<string>)
    requires Ascending(keys) && forall k :: k in keys <==> k in hash
    requires Collect(hash, decode, keys).Err?
    ensures exists k :: (Malformed(hash, decode, k)
                         && Collect(hash, decode, keys).error == ParseError(k, decode(TrimSpace(hash[k])).error)
                         && forall k' :: Malformed(hash, decode, k') && k' != k ==> Below(k, k'))
  {
    CollectError(hash, decode, keys);
    var j :| FailsFirstAt(hash, decode, keys, j);
    forall k' | Malformed(hash, decode, k') && k' != keys[j]
      ensures Below(keys[j], k')
    {
      var j' :| 0 <= j' < |keys| && keys[j'] == k';
    }
  }

  /** A listed server whose key is already trimmed is the one
      GetCoreServerByKey returns for that key. */
  lemma ListedIsFetched(c: RedisClient, decode: Decoder, s: CoreServer)
    requires c.fault.None? && Listed(c.hash, s.key) && IsTrimmed(s.key) && s.key != ""
    requires decode(TrimSpace(c.hash[s.key])) == Ok(CoreServerValue(s.ip, s.port))
    ensures GetCoreServerByKey(Some(c), s.key, decode) == Ok(s)
  {
    TrimSpaceOfTrimmed(s.key);
  }
}
