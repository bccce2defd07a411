# One-time secret store: a Dafny model

This project models the core of a one-time-secret service written in Go. A
client POSTs a plaintext and gets back an id. The id is the lowercase hex of
the plaintext's MD5 digest. The first successful GET of `/<id>` returns the
plaintext and deletes it from the store. A later GET answers 404. There are
exceptions:
- A GET whose file read fails answers 500 and changes nothing.
- A GET whose rewrite fails after the lookup answers 500. In the model the
  entry stays stored, so a later GET can still succeed.
- POSTing the same plaintext again makes the same id live again.

- `ids.dfy` (module `Ids`) models the id derivation `fmt.Sprintf("%x", md5.Sum(...))`.
  `Hex` is the `%x` rendering, and `HexDecode` is its inverse. `SecretId` is the
  hex of a 16-byte digest.
- `secrets.dfy` (module `Secrets`) models the store in `secrets/secrets.go`.
  The persisted JSON file is the field `secrets: map<string, string>` of class
  `Store`. Each locked call (`WriteSecret`, `LoadSecret`) is one atomic
  method. `SaveSecret` computes the id without the lock, then calls
  `WriteSecret`, which takes it. The id touches no state, so `SaveSecret` is
  still one atomic step. `CreateFile` takes no lock. It runs once at startup.
  Each method is proved equal to a pure specification function:
  `CreateEffect`, `WriteEffect`, `LoadEffect` or `SaveEffect`. Every file operation takes its outcome as an input:
  - `StatOutcome`: the file exists, does not exist, or the stat fails.
  - `ReadOutcome`: the read succeeds, the read fails, or the decode leaves a
    nil map.
  - `WriteOutcome`: the write succeeds or fails.

  The lemmas at the end of the module treat a serialized history of calls as
  a sequence of `Call`s. This is what the global lock produces. In those
  lemmas a hand-out is a `LoadSecret` that returns a non-empty value and a
  nil error. A `LoadSecret` that returns the value together with a write
  error is not a hand-out.
- `server.dfy` (module `Server`) models the request handling in
  `server/server.go` as pure functions. A handler maps a request, the file
  contents and the I/O outcomes to a `Response` and the new file contents.
  The store call inside a handler is the store's specification function.

MD5 is a parameter `md5: string -> Digest` of every member that needs it. It
stands for any total function that returns 16 bytes. No claim depends on
collision resistance. The `[]byte(plainText)` conversion is folded into this
parameter.

Three behaviours of the code are easy to miss:
- `SaveSecret("")` is not rejected. The code stores `id ↦ ""` like any other
  value. `LoadSecret` treats `""` as absent, so such an entry is never handed
  out and never removed (`EmptySaveIsNeverConsumed`, `EmptyEntryPersists`).
- When the file cannot be read or written, `SaveSecret` still returns the
  hash, together with the error.
- When the rewrite fails after a lookup, `LoadSecret` returns the value
  together with the error. In the model the entry stays in the file. The HTTP
  layer answers 500 in that case and does not show the value
  (`FailedDeleteKeepsSecret`).

## Model

| member | source | states |
|---|---|---|
| Ids.Hex | secrets/secrets.go:106 | `%x` of n bytes has 2n characters, all in `0-9a-f` |
| Ids.HexDecode | secrets/secrets.go:106 | the inverse of `%x`: whatever it decodes re-encodes to the same text, and the byte count is half the length |
| Ids.HexRoundTrip | secrets/secrets.go:106 | decoding the `%x` text of any bytes gives those bytes back |
| Ids.HexInjective | secrets/secrets.go:106 | two byte strings print the same `%x` text if and only if they are equal |
| Ids.SecretId | secrets/secrets.go:106 | the id is 32 characters of lowercase hex and decodes to the digest of the plaintext |
| Ids.SameIdIffSameDigest | secrets/secrets.go:106 | two plaintexts get the same id exactly when their digests are equal |
| Secrets.CreateEffect | secrets/secrets.go:43-51 | a missing file becomes `{}` when the write succeeds; an existing file is left as it is and nil is returned; the stat or write error is returned as it is and nothing changes |
| Secrets.WriteEffect | secrets/secrets.go:70-83 | succeeds exactly when read and write both succeed, and then the map is the old map with `hash ↦ value` and every other key unchanged; a read error is returned without a write; a write error is returned as it is; a nil decoded map panics; on any failure the file is unchanged |
| Secrets.SaveEffect | secrets/secrets.go:105-109 | the returned id is `SecretId(plaintext)` whenever `SaveSecret` returns (a nil decoded map panics instead); on success the map gains `id ↦ plaintext`, otherwise it is unchanged; a read or write error is returned as it is |
| Secrets.LoadEffect | secrets/secrets.go:85-103 | a missing id or one mapped to `""` yields `""` and no change (no error unless the read fails); an undecodable file yields `("", nil)` and no change for every id; a stored non-empty value is returned; only the returned id is ever removed, and only when the rewrite succeeds; a failed rewrite returns the value with the write error and keeps it stored |
| Secrets.Store.constructor | secrets/secrets.go:18 | the store starts over a data file holding the given map |
| Secrets.Store.CreateFile | secrets/secrets.go:43-51 | the new file contents and the returned error are those of `CreateEffect` |
| Secrets.Store.ReadJsonFile | secrets/secrets.go:53-60 | returns the stored map on a good read, a nil map with no error when decoding fails, and the read error otherwise |
| Secrets.Store.SaveJsonFile | secrets/secrets.go:62-68 | a successful write replaces the file with the given map; a failed one returns the error and leaves the file unchanged |
| Secrets.Store.WriteSecret | secrets/secrets.go:70-83 | the new file contents and the outcome are those of `WriteEffect` |
| Secrets.Store.LoadSecret | secrets/secrets.go:85-103 | the new file contents, the value and the error are those of `LoadEffect` |
| Secrets.Store.SaveSecret | secrets/secrets.go:105-109 | the new file contents, the hash and the outcome are those of `SaveEffect` |
| Secrets.SaveIsIdempotent | secrets/secrets.go:74-109 | saving the same plaintext twice gives the same id and the same file as saving it once |
| Secrets.SaveReadFailure | secrets/secrets.go:74-108 | when the read fails, nothing is written and `SaveSecret` returns the hash with the read error |
| Secrets.ExactlyOnce | secrets/secrets.go:94-100 | after a load hands out a value without error, a second load of the same id returns `""` and changes nothing, whatever its I/O outcome |
| Secrets.SaveThenLoad | secrets/secrets.go:94-109 | for a non-empty plaintext, a save followed by a load of its id returns the plaintext and leaves the file without that id |
| Secrets.EmptySaveIsNeverConsumed | secrets/secrets.go:94-109 | `SaveSecret("")` succeeds and stores `id ↦ ""`, and no load of that id hands anything out or removes the entry |
| Secrets.StepAccounting | secrets/secrets.go:85-109 | in one call, a hand-out of an id uses up its live entry, and only a successful non-empty save can make the id live |
| Secrets.RevealsBoundedByStores | secrets/secrets.go:70-109 | in any serialized history, the hand-outs of an id plus the final live entry never exceed the initial live entry plus the successful non-empty saves under that id |
| Secrets.AtMostOneRevealPerSave | secrets/secrets.go:70-109 | an id that starts absent and is saved at most once is handed out at most once |
| Secrets.LiveEntrySurvives | secrets/secrets.go:70-109 | a live entry keeps its value through every history that neither loads its id nor saves under it |
| Secrets.SaveSurvivesUntilLoad | secrets/secrets.go:70-109 | after a successful save of a non-empty plaintext and any calls that neither load its id nor save under it, a successful load of its id returns the plaintext and removes only that id |
| Secrets.EmptyEntryPersists | secrets/secrets.go:94-97 | an entry holding `""` survives every history with no successful non-empty save under its id (failed saves and re-saves of `""` included), and is never handed out |
| Server.ContentTypeIs | server/server.go:101-104 | true exactly when the `Content-Type` header is `application/json` |
| Server.ContentTypeIgnoresExpected | server/server.go:101-104 | the verdict of `contentTypeIs` is the same whatever `expected` is |
| Server.SendError | server/server.go:106-118 | writes the given status; no body when the message is empty; otherwise the message behind `Server Error: ` for status ≥ 500, `Bad Request: ` for 400–499, and no prefix below 400 |
| Server.BadRequest | server/server.go:120-122 | status 400; the message behind `Bad Request: `, or no body for an empty message |
| Server.ServerError | server/server.go:124-126 | status 500; the message behind `Server Error: `, or no body for an empty message |
| Server.SecretNotFound | server/server.go:128-132 | status 404 with the body `{"data":""}` and a newline |
| Server.PostSecretHandler | server/server.go:56-85 | a wrong content type, an undecodable body or an empty `plain_text` gives 400 with its message (`Content-Type must be application/json`, the decoder's error, `plain_text value is empty`) and leaves the store untouched; otherwise 200 with `{"id": SecretId(plaintext)}` exactly when the save succeeds; 500 with the read error, or with the write error after a good read, leaving the store untouched; no response when the decoded map is nil and the save panics |
| Server.GetSecretHandler | server/server.go:134-153 | the id is the path without its first character; an empty id gives 404 `{"data":""}` with no store call; 200 with `{"data": v}` exactly when the id holds a non-empty `v` and its deletion is written; 500 on a read error or a failed rewrite; 404 for a missing or empty secret, and for any id when the file does not decode; only a 200 changes the file |
| Server.SecretHandler | server/server.go:45-54 | GET is answered as `getSecretHandler` answers and POST as `postSecretHandler`; any other method gives 405 and leaves the store untouched; the file changes only together with a 200 |
| Server.GetShowsOnlyHandedOutValues | server/server.go:141-152 | a GET answers 200 exactly when the store's load hands out a value without error, and the body carries that value |
| Server.FailedDeleteKeepsSecret | server/server.go:141-145 | when the rewrite after a lookup fails, the GET answers 500 with the error and the secret stays stored |
| Server.PostThenGetTwice | server/server.go:56-153 | POST then GET of the returned id gives 200 with the plaintext, and a second GET of it is not a 200 and changes nothing |
| Server.ServeStepAccounting | server/server.go:45-153 | in one request, a 200 to `GET /id` uses up the live entry, and only a successful POST under `id` can make it live |
| Server.ServedBoundedByPosted | server/server.go:45-153 | in any serialized history of requests, the 200 answers to `GET /id` plus the final live entry never exceed the initial live entry plus the successful POSTs under `id` |

## Left out

- MD5 internals (`crypto/md5`): the digest is a parameter returning 16 bytes. Nothing assumes collision resistance.
- `encoding/json`: the file is the map itself, and encoding followed by decoding is the identity. The model leaves out two cases. `json.Marshal` replaces invalid UTF-8 with U+FFFD. A well-formed JSON object with non-string values can be partly decoded.
- `Undecodable` stands for every decode that leaves the map nil (invalid JSON, an empty file, `null`, a non-object). A partly decoded map is not modelled.
- Secrets.Store.SaveJsonFile: a failed `os.WriteFile` is modelled as leaving the file unchanged. A real `os.WriteFile` truncates the file first, so a failed write may leave it empty or partly written. It can also report a close error after the whole map was written. In that case a failed rewrite in `LoadSecret` has already deleted the entry, and a failed save has already stored it. The model does not capture either case.
- `sync.Mutex` and concurrency: each locked call is one atomic step. Concurrent runs appear only as serialized histories (`Call`, `Arrival` sequences).
- `InitFile` and `fetchSecretsFilepath` (secrets/secrets.go:21-41): environment lookup and startup. `createFile` itself is modelled.
- HTTP server setup, routing and the health check (server/server.go:27-43): process plumbing. The model starts at `secretHandler`.
- Response headers: the `Content-Type` headers set by `sendSecretId`, `sendSecretData` and `sendSecretNotFound` are not modelled. The 404 header is set after `WriteHeader` and so has no effect.
- JSON rendering of response bodies: `sendSecretId` and `sendSecretData` (server/server.go:87-99) are modelled as a `JsonField(key, value)` payload. The bytes `json.Encoder` writes are not modelled. The 404 body is the literal text `sendSecretNotFound` prints.
- Request body decoding (server/server.go:63-68): its result is an input. It is either a decode error with its message, or the `plain_text` value. A missing or null field is `""`.
- Panics: when assigning into a nil map panics in `writeSecret`, or slicing an empty path panics in `getSecretHandler`, the handler writes no response (`Dropped`). net/http's recovery, logging and connection close are not modelled. The router never delivers an empty path.
- `main.go`: process startup. It refers to `secrets.Storage` and calls `secrets.NewFileStorage` and a two-argument `StartListener`. None of these exist in the packages modelled here.
