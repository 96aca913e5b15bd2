/**
 * `Secure`: a Provider that wraps another one and accepts a retrieved file
 * only when its signature checks out. `Open` opens the wrapped backend and
 * loads the signature manifest `signatures.json` through it (by way of a
 * temporary directory that is always removed again); `Retrieve` delegates,
 * then verifies the file, and deletes it when verification fails.
 */
module ProviderSecure {
  import opened Wrappers
  import opened Files
  import opened Provider

  /** The loaded manifest: relative artifact path to detached signature. */
  type Signatures = map<Path, Bytes>

  /** An RSA public key (modulus and public exponent). */
  datatype PublicKey = PublicKey(n: nat, e: nat)

  /** The two calls into the crypto package, as given oracles.
      `load(path, content)` is LoadSignaturesFromJSON on the file `path`, whose
      content is `content` (None when there is no such file); like the Go
      function it answers with a manifest (possibly nil) and an error.
      `verify(sigs, key, src, dest, content)` is `sigs.Verify(key, src, dest)`
      when the file `dest` holds `content`. */
  datatype Loaded = Loaded(signatures: Option<Signatures>, err: Outcome)
  datatype Crypto = Crypto(
    load: (Path, Option<Bytes>) -> Loaded,
    verify: (Signatures, PublicKey, Path, Path, Option<Bytes>) -> Outcome)

  /** The manifest's fixed path, both in the backend and inside the temporary directory. */
  const ManifestName: Path := "signatures.json"

  /** The outcome of Open: the returned error, the `signatures` field and the filesystem afterwards. */
  datatype OpenState = OpenState(err: Outcome, signatures: Option<Signatures>, files: map<Path, Bytes>)

  /** The outcome of Retrieve: the returned error and the filesystem afterwards. */
  datatype RetrieveState = RetrieveState(err: Outcome, files: map<Path, Bytes>)

  /** Where Open has the backend put the manifest. */
  function ManifestFile(tmpDir: Path): (p: Path)
    requires IsDirName(tmpDir)
    ensures Under(p, tmpDir) && p != tmpDir
  {
    Join(tmpDir, ManifestName)
  }

  /** What `Open` does, given the backend `b`, the crypto oracles, the current
      `signatures`, the filesystem, and what `fileio.TempDir` answers. */
  function OpenEffect(b: Behaviour, crypto: Crypto, signatures: Option<Signatures>,
                      files: map<Path, Bytes>, tempDir: Result<Path>): (r: OpenState)
    requires tempDir.Success? ==> IsDirName(tempDir.value)
    // the backend's own Open failed: its error, and nothing else happens
    ensures b.open.Fail? ==> r == OpenState(b.open, signatures, files)
    // no temporary directory: that error, nothing else changes
    ensures b.open.Pass? && tempDir.Failure? ==>
      r == OpenState(Fail(tempDir.error), signatures, files)
    // once the temporary directory exists, nothing is left under it on return,
    // and no file outside it has been touched
    ensures b.open.Pass? && tempDir.Success? ==>
      && NothingUnder(r.files, tempDir.value)
      && forall p :: !Under(p, tempDir.value) ==>
           (p in r.files <==> p in files) && (p in r.files ==> r.files[p] == files[p])
    // fetching the manifest failed: that error, signatures untouched
    ensures b.open.Pass? && tempDir.Success? ==>
      var d := b.retrieve(ManifestName, ManifestFile(tempDir.value));
      d.result.Fail? ==> r.err == d.result && r.signatures == signatures
    // fetched: the loader sees what the backend left at the manifest file,
    // its error is returned and its manifest is stored
    ensures b.open.Pass? && tempDir.Success? ==>
      var tmpFile := ManifestFile(tempDir.value);
      var d := b.retrieve(ManifestName, tmpFile);
      var loaded := crypto.load(tmpFile, Read(Delivered(files, tmpFile, d.effect), tmpFile));
      d.result.Pass? ==> r.err == loaded.err && r.signatures == loaded.signatures
    // success exactly when every step succeeds
    ensures r.err.Pass? <==>
      && b.open.Pass? && tempDir.Success?
      && var tmpFile := ManifestFile(tempDir.value);
         var d := b.retrieve(ManifestName, tmpFile);
         && d.result.Pass?
         && crypto.load(tmpFile, Read(Delivered(files, tmpFile, d.effect), tmpFile)).err.Pass?
  {
    if b.open.Fail? then OpenState(b.open, signatures, files)
    else if tempDir.Failure? then OpenState(Fail(tempDir.error), signatures, files)
    else
      var tmpFile := ManifestFile(tempDir.value);
      var d := b.retrieve(ManifestName, tmpFile);
      var fetched := Delivered(files, tmpFile, d.effect);
      if d.result.Fail? then
        OpenState(d.result, signatures, WithoutTree(fetched, tempDir.value))
      else
        var loaded := crypto.load(tmpFile, Read(fetched, tmpFile));
        OpenState(loaded.err, loaded.signatures, WithoutTree(fetched, tempDir.value))
  }

  /** When the temporary directory is fresh, Open leaves the filesystem exactly
      as it found it, whatever the outcome. */
  lemma OpenRestoresFiles(b: Behaviour, crypto: Crypto, signatures: Option<Signatures>,
                          files: map<Path, Bytes>, tempDir: Result<Path>)
    requires tempDir.Success? ==> IsDirName(tempDir.value) && NothingUnder(files, tempDir.value)
    ensures OpenEffect(b, crypto, signatures, files, tempDir).files == files
  {
  }

  /** What `Retrieve(src, dest)` does, given the backend `b`, the crypto oracles,
      the loaded manifest, the public key and the filesystem. */
  function RetrieveEffect(b: Behaviour, crypto: Crypto, sigs: Signatures, key: PublicKey,
                          src: Path, dest: Path, files: map<Path, Bytes>): (r: RetrieveState)
    // the backend failed: its error unchanged, and the decorator adds no effect
    // of its own to what the backend did
    ensures b.retrieve(src, dest).result.Fail? ==>
      r == RetrieveState(b.retrieve(src, dest).result, Delivered(files, dest, b.retrieve(src, dest).effect))
    // verification failed: its error, and nothing is left at dest
    ensures b.retrieve(src, dest).result.Pass? ==>
      var content := Read(Delivered(files, dest, b.retrieve(src, dest).effect), dest);
      var v := crypto.verify(sigs, key, src, dest, content);
      v.Fail? ==> r.err == v && dest !in r.files
    // success: dest holds exactly what the backend wrote, and Verify approved it
    ensures r.err.Pass? ==>
      && b.retrieve(src, dest).result.Pass?
      && r.files == Delivered(files, dest, b.retrieve(src, dest).effect)
      && crypto.verify(sigs, key, src, dest, Read(r.files, dest)) == Pass
    // and conversely: backend success and Verify approval give a nil error,
    // with dest as the backend left it
    ensures b.retrieve(src, dest).result.Pass? ==>
      var fetched := Delivered(files, dest, b.retrieve(src, dest).effect);
      crypto.verify(sigs, key, src, dest, Read(fetched, dest)) == Pass ==>
        r == RetrieveState(Pass, fetched)
    // a backend success followed by a failure never leaves a file at dest
    ensures r.err.Fail? && b.retrieve(src, dest).result.Pass? ==> dest !in r.files
    // no other path changes
    ensures forall p :: p != dest ==> (p in r.files <==> p in files) && (p in r.files ==> r.files[p] == files[p])
  {
    var d := b.retrieve(src, dest);
    var fetched := Delivered(files, dest, d.effect);
    if d.result.Fail? then RetrieveState(d.result, fetched)
    else
      var v := crypto.verify(sigs, key, src, dest, Read(fetched, dest));
      if v.Fail? then RetrieveState(v, fetched - {dest})
      else RetrieveState(Pass, fetched)
  }

  /** Retrying is safe: against a backend that either fails or writes `dest`,
      a second Retrieve of the same pair gives the same error and the same
      filesystem as the first. */
  lemma RetrieveIdempotent(b: Behaviour, crypto: Crypto, sigs: Signatures, key: PublicKey,
                           src: Path, dest: Path, files: map<Path, Bytes>)
    requires b.retrieve(src, dest).result.Fail? || b.retrieve(src, dest).effect.Written?
    ensures var first := RetrieveEffect(b, crypto, sigs, key, src, dest, files);
            RetrieveEffect(b, crypto, sigs, key, src, dest, first.files) == first
  {
  }

  class Secure {
    const provider: Source
    const publicKey: PublicKey
    const crypto: Crypto
    var signatures: Option<Signatures>

    /** `&Secure{Provider: provider, PublicKey: publicKey}`: no manifest yet. */
    constructor (provider: Source, publicKey: PublicKey, crypto: Crypto)
      ensures this.provider == provider && this.publicKey == publicKey && this.crypto == crypto
      ensures signatures == None
    {
      this.provider := provider;
      this.publicKey := publicKey;
      this.crypto := crypto;
      signatures := None;
    }

    /** `tempDir` is the answer `fileio.TempDir` gives if it is called. */
    method Open(fs: FileSystem, tempDir: Result<Path>) returns (err: Outcome)
      requires tempDir.Success? ==> IsDirName(tempDir.value)
      modifies this, provider`log, fs
      ensures var r := OpenEffect(provider.behaviour, crypto, old(signatures), old(fs.files), tempDir);
              err == r.err && signatures == r.signatures && fs.files == r.files
      // the manifest is fetched only after the backend opened and the temporary
      // directory exists, and then from exactly "signatures.json" into it
      ensures provider.behaviour.open.Fail? || tempDir.Failure? ==>
        provider.log == old(provider.log) + [OpenCall]
      ensures provider.behaviour.open.Pass? && tempDir.Success? ==>
        provider.log == old(provider.log) + [OpenCall, RetrieveCall(ManifestName, ManifestFile(tempDir.value))]
    {
      err := provider.Open();
      if err.Fail? {
        return;
      }
      if tempDir.Failure? {
        err := Fail(tempDir.error);
        return;
      }
      var tmpDir := tempDir.value;
      var tmpFile := ManifestFile(tmpDir);
      // the deferred os.RemoveAll(tmpDir) runs on both returns below
      err := provider.Retrieve(ManifestName, tmpFile, fs);
      if err.Fail? {
        fs.RemoveAll(tmpDir);
        return;
      }
      var loaded := crypto.load(tmpFile, Read(fs.files, tmpFile));
      signatures := loaded.signatures;
      err := loaded.err;
      fs.RemoveAll(tmpDir);
    }

    method Close() returns (err: Outcome)
      modifies provider`log
      ensures err == provider.behaviour.close
      ensures provider.log == old(provider.log) + [CloseCall]
    {
      err := provider.Close();
    }

    method GetLatestVersion() returns (r: Result<string>)
      modifies provider`log
      ensures r == provider.behaviour.latest
      ensures provider.log == old(provider.log) + [LatestCall]
    {
      r := provider.GetLatestVersion();
    }

    method Walk(walkFn: WalkFunc) returns (err: Outcome)
      modifies provider`log
      ensures err == provider.behaviour.walk(walkFn)
      ensures provider.log == old(provider.log) + [WalkCall]
    {
      err := provider.Walk(walkFn);
    }

    /** Needs a manifest, that is, an Open that got as far as loading one. */
    method Retrieve(src: Path, dest: Path, fs: FileSystem) returns (err: Outcome)
      requires signatures.Some?
      modifies provider`log, fs
      ensures var r := RetrieveEffect(provider.behaviour, crypto, signatures.value, publicKey, src, dest, old(fs.files));
              err == r.err && fs.files == r.files
      ensures signatures == old(signatures)
      ensures provider.log == old(provider.log) + [RetrieveCall(src, dest)]
    {
      err := provider.Retrieve(src, dest, fs);
      if err.Fail? {
        return;
      }
      err := crypto.verify(signatures.value, publicKey, src, dest, Read(fs.files, dest));
      if err.Fail? {
        fs.Remove(dest);
        return;
      }
    }
  }
}
