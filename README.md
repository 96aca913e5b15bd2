# Signature-checking update provider (go-rocket-update), modelled in Dafny

go-rocket-update fetches update files from a pluggable *provider* (a local
directory, a zip archive, a GitHub repository). This project models two parts
of its `provider` package:

- **`Secure`** (`provider/provider_secure.go`), a decorator around any
  provider. `Open` opens the wrapped provider. It then fetches the manifest
  `signatures.json` through that provider into a temporary directory, loads
  the manifest, and removes the directory again. `Retrieve` delegates to the
  wrapped provider and verifies the retrieved file against the manifest. When
  verification fails it deletes the destination file.
- **The GitHub provider's URL logic** (`provider/provider_github.go`). This
  covers the constructor, `repositoryInfo` (owner and name from the repository
  URL, using the pattern `github\.com/(.*?)/(.*?)$`), `tagsURL`, `zipURL`, and
  the stub methods.

Files:

- `wrappers.dfy` (`Wrappers`): Go's `error` as `Outcome`, and `(value, error)` as `Result`.
- `files.dfy` (`Files`): the filesystem as a map from path to bytes.
  `filepath.Join`, `os.Remove` and `os.RemoveAll` act on that map.
- `provider.dfy` (`Provider`): the Provider interface. A `Behaviour` value
  says what a backend answers to each call. The class `Source` plays any such
  backend and keeps a ghost log of the calls it receives.
- `provider_secure.dfy` (`ProviderSecure`): the class `Secure`. The pure
  functions `OpenEffect` and `RetrieveEffect` give the outcome and the new
  filesystem of `Open` and `Retrieve`. The methods are proved equal to them,
  and the lemmas about them state the failure rules.
- `provider_github.dfy` (`ProviderGithub`): the GitHub provider as an
  immutable datatype with pure functions.

Environment inputs are parameters:

- `crypto.LoadSignaturesFromJSON` and `Signatures.Verify` are oracle functions
  held in a `Crypto` value. Their code is not part of this model, so nothing
  is assumed about how they treat a missing manifest entry.
- The answer of `fileio.TempDir` is a parameter of `Secure.Open`.

Regex semantics follow Go's RE2. `.` does not match `"\n"`, and `$` without the
`m` flag matches only at the end of the text. So a match starts at an
occurrence of `github.com/` whose remaining text has no line break and
contains a `/`. The first such occurrence wins. The lazy owner group stops at
the first `/` of that text, and the name group takes the rest.

Two points about the code:

- `Open` keeps no state of its own beyond `signatures`. On a load failure the
  code still assigns to `signatures` whatever the loader returned (line 37),
  and the model does the same.
- `Retrieve` does not look up `src` in the manifest itself. Looking it up, and
  what happens when there is no entry, is left to `Signatures.Verify`, whose
  code is not part of this model; the model leaves it to that oracle.

## Model

| member | source | states |
|---|---|---|
| `ProviderSecure.Secure.constructor` | provider/provider_secure.go:14-18 | a new `Secure` holds the given provider and public key, and no manifest (`signatures` is nil) |
| `ProviderSecure.OpenEffect` | provider/provider_secure.go:21-43 | if the inner Open fails, its error is returned and neither the filesystem nor `signatures` changes; if TempDir fails, that error is returned and nothing changes; once the temporary directory exists, nothing is left under it on return and no file outside it is touched; if fetching the manifest fails, its error is returned and `signatures` is kept; otherwise the loader reads what the backend left at `tmpDir/signatures.json`, and its error and manifest are returned and stored; the error is nil exactly when all four steps succeed |
| `ProviderSecure.OpenRestoresFiles` | provider/provider_secure.go:26-32 | with a fresh temporary directory, `Open` leaves the filesystem exactly as it found it, on every path (the deferred `RemoveAll`) |
| `ProviderSecure.ManifestFile` | provider/provider_secure.go:31 | the manifest's temporary file lies inside the temporary directory |
| `ProviderSecure.Secure.Open` | provider/provider_secure.go:21-43 | its error, `signatures` and the filesystem are those of `OpenEffect`; the backend gets exactly `Open`, and, only when that succeeded and the temporary directory exists, one `Retrieve("signatures.json", tmpDir/signatures.json)` |
| `ProviderSecure.Secure.Close` | provider/provider_secure.go:46-48 | returns exactly the backend's Close error; the only effect is that one call to the backend |
| `ProviderSecure.Secure.GetLatestVersion` | provider/provider_secure.go:51-53 | returns exactly the backend's version and error; the only effect is that one call |
| `ProviderSecure.Secure.Walk` | provider/provider_secure.go:56-58 | hands the visitor to the backend and returns exactly its error; the only effect is that one call |
| `ProviderSecure.RetrieveEffect` | provider/provider_secure.go:61-72 | if the backend fails, its error is returned unchanged and the decorator adds no change of its own; if verification fails, its error is returned and `dest` does not exist afterwards; the error is nil exactly when the backend and `Verify` both succeed, and then `dest` holds exactly what the backend left there, which is the content `Verify` approved; no path other than `dest` changes |
| `ProviderSecure.RetrieveIdempotent` | provider/provider_secure.go:61-72 | against a backend that fails or writes `dest`, repeating `Retrieve(src, dest)` gives the same error and the same filesystem |
| `ProviderSecure.Secure.Retrieve` | provider/provider_secure.go:61-72 | its error and the new filesystem are those of `RetrieveEffect`; `signatures` is unchanged (`Provider` and `PublicKey` are constants), so the session stays usable after a failure; the backend receives exactly `Retrieve(src, dest)` |
| `Files.Join` | provider/provider_secure.go:31 | `filepath.Join(dir, name)` lies inside `dir` and ends in `name` |
| `Files.FileSystem.RemoveAll` | provider/provider_secure.go:30 | afterwards nothing lies under the directory, and every other file is kept |
| `Files.FileSystem.Remove` | provider/provider_secure.go:68 | removes exactly `dest`; the error it could return is discarded |
| `ProviderGithub.NewProviderGithub` | provider/provider_github.go:40-45 | stores `repoURL` and `zipName` unchanged; `zipProvider` is nil |
| `ProviderGithub.MatchesAt` | provider/provider_github.go:49 | the pattern `github\.com/(.*?)/(.*?)$` under RE2 can match from `i`: the literal is there, and the rest of the text has no line break and contains a "/" |
| `ProviderGithub.PatternMatchesAt` | provider/provider_github.go:49 | every way the pattern can match from `i` (literal, newline-free group, "/", newline-free group to the end) satisfies `MatchesAt` |
| `ProviderGithub.FirstMatchGroups` | provider/provider_github.go:49-57 | conversely, at the first match the tail splits into a "/"-free, newline-free owner, "/", and a newline-free name, and the URL from there is `"github.com/" + owner + "/" + name` |
| `ProviderGithub.FindMatch` | provider/provider_github.go:49-50 | returns the leftmost start of a match of the pattern, or reports that there is none anywhere |
| `ProviderGithub.SplitOwnerName` | provider/provider_github.go:49 | splits a matched tail into owner + "/" + name with no "/" in the owner (the lazy first group) |
| `ProviderGithub.ProviderGithub.GetRepositoryInfo` | provider/provider_github.go:48-58 | fails exactly when no match exists, with the error `"Invalid github URL:" + repoURL`; on success the owner has no "/" and no line break, the name has no line break, and the URL from the first match on is `"github.com/" + owner + "/" + name` |
| `ProviderGithub.GetRepositoryInfoOfFirstMatch` | provider/provider_github.go:48-58 | the converse: whenever the first match starts at `i` and the URL from there is `"github.com/" + owner + "/" + name` with no "/" in the owner, exactly that owner and name are returned |
| `ProviderGithub.RepositoryURLRoundTrip` | provider/provider_github.go:48-58 | round trip: for owner without "/" or line break and name without line break, `scheme + "github.com/" + owner + "/" + name` parses back to that owner and name, for any scheme without a "g" (such as `"https://"`) |
| `ProviderGithub.ProviderGithub.TagsURL` | provider/provider_github.go:61-70 | on a parsed URL, the tags API URL of that owner and name; otherwise the parse error unchanged |
| `ProviderGithub.TagsURLOfRepository` | provider/provider_github.go:61-70 | for `https://github.com/owner/name`, the tags URL is `https://api.github.com/repos/owner/name/tags` |
| `ProviderGithub.ProviderGithub.ZipURL` | provider/provider_github.go:73-84 | on a parsed URL, the release download URL of that owner, name, tag and `zipName`; otherwise the parse error unchanged |
| `ProviderGithub.ZipURLOfRepository` | provider/provider_github.go:73-84 | for `https://github.com/owner/name`, the zip URL is `https://github.com/owner/name/releases/download/tag/zipName` |
| `ProviderGithub.InvalidURLPropagates` | provider/provider_github.go:48-84 | a URL with no match gives `"Invalid github URL:" + repoURL`, and `tagsURL` and `zipURL` both pass that error on |
| `ProviderGithub.ProviderGithub.Close` | provider/provider_github.go:114-116 | always returns nil |
| `ProviderGithub.ProviderGithub.GetLatestVersion` | provider/provider_github.go:119-121 | always returns `("1.0", nil)` |
| `ProviderGithub.ProviderGithub.Walk` | provider/provider_github.go:124-126 | returns nil without calling the visitor |
| `ProviderGithub.ProviderGithub.Retrieve` | provider/provider_github.go:129-131 | reports success and leaves `dest` untouched |
| `ProviderGithub.AsBehaviour` | provider/provider_github.go:114-131 | the GitHub provider seen as a Provider backend, with Open's answer (from the network) as a parameter: `Close` and every `Walk` pass, `GetLatestVersion` answers `("1.0", nil)`, and every `Retrieve` passes leaving `dest` untouched |
| `ProviderGithub.StubsHaveNoEffect` | provider/provider_github.go:114-131 | `Close`, `Walk` and `Retrieve` always succeed, `Retrieve` changes no file, and `GetLatestVersion` always answers `("1.0", nil)` |

## Left out

- The code of `provider/provider.go` is not available here; the `Provider` interface and `WalkFunc` are rebuilt from their use in `Secure` and in `provider/provider_test.go`. `Source` stands for a backend whose answers are fixed for the session. Its `Retrieve` either leaves `dest` alone or writes it, and touches no other path; a backend that deletes `dest`, such as a `Secure` inside another `Secure`, or one that writes files beside `dest`, is not covered. Its `Walk` changes no file, because visitors are modelled as pure functions; an effectful visitor such as the one in `provider/provider_test.go` is not covered. The backend's own `Open` is taken to leave the filesystem alone.
- `ProviderSecure.RetrieveIdempotent`: requires a backend that fails or writes `dest`. A backend that reports success without writing, like the GitHub stub, lets the second `Verify` see a different file state from the first, and the oracle is not constrained there.
- `crypto.LoadSignaturesFromJSON` and `Signatures.Verify` are oracles, because the crypto package is not part of this model. RSA key generation and PEM export in `command/keygen.go` are left out for the same reason, together with that command's flag parsing and printing.
- `fileio.TempDir` is not part of this model. Its answer is a parameter of `Secure.Open`. The model requires only that it is non-empty and has no trailing "/" (`Files.IsDirName`). Directories are not entries of the filesystem map, so creating the temporary directory has no visible effect.
- `Files.Join`: path cleaning is not modelled. `Join(dir, name)` is `dir + "/" + name`, which equals `filepath.Join(dir, name)` only on a "/"-separated platform and only when `dir` is already clean (no "//", no "." or ".." element) and `name` is a clean relative name, as `"signatures.json"` is. For an unclean `dir` such as ".", the model's manifest path (and the logged `RetrieveCall` destination) differs from Go's cleaned one.
- `Files.FileSystem.Remove` / `Files.FileSystem.RemoveAll`: both always succeed in the model. The code discards their errors (`os.Remove(dest)` at provider/provider_secure.go:68, the deferred `os.RemoveAll(tmpDir)` at line 30), so a failed removal goes unnoticed: the unverified file stays at `dest` while `Retrieve` still returns the verification error, or the manifest stays under the temporary directory. `RetrieveEffect`'s "`dest` does not exist after a failed verification", `OpenEffect`'s "nothing is left under the temporary directory" and `OpenRestoresFiles` hold only under this assumption.
- `getTags` and the GitHub provider's `Open` are left out: they do HTTP, JSON decoding of tags, and printing.
- `provider/provider_test.go` is left out: it is a test harness for a local provider whose code is not part of this model.
- Calling `Secure.Retrieve` before a manifest is loaded is excluded by its precondition (`signatures` non-nil). With a nil manifest the behaviour depends on unseen code.
- Concurrency is left out; every call is sequential.
