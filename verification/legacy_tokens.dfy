/** The older refresh-token table (src/db/mod.rs), still written by the management login. */
module LegacyTokens {
  import opened Schema

  /** `known` tells whether `clients` holds the client, which the row references. */
  function CreateLegacy(r: RefreshTables, known: bool, id: TokenId, client: ClientId, token: Token, expires: Time)
    : (after: (RefreshTables, Result<()>))
  {
    if !known || token in r.legacy || (exists x | x in r.legacy :: r.legacy[x].id == id) then
      (r, Err(ConstraintViolated))
    else
      (r.(legacy := r.legacy[token := LegacyToken(id, client, expires, false)]), Ok(()))
  }

  predicate LegacyUsable(row: LegacyToken, now: Time) {
    row.expires > now && !row.revoked
  }

  function ConsumeLegacy(r: RefreshTables, now: Time, token: Token): (after: (RefreshTables, Option<ClientId>)) {
    if token in r.legacy && LegacyUsable(r.legacy[token], now)
    then (r.(legacy := r.legacy[token := r.legacy[token].(revoked := true)]), Some(r.legacy[token].client))
    else (r, None)
  }

  function RevokeLegacyByToken(r: RefreshTables, token: Token): (after: RefreshTables) {
    if token in r.legacy then r.(legacy := r.legacy[token := r.legacy[token].(revoked := true)]) else r
  }

  function RevokeLegacyById(r: RefreshTables, id: TokenId): (after: RefreshTables) {
    r.(legacy := map x | x in r.legacy ::
         if r.legacy[x].id == id then r.legacy[x].(revoked := true) else r.legacy[x])
  }

  function RevokeLegacyOfClient(r: RefreshTables, client: ClientId): (after: RefreshTables) {
    r.(legacy := map x | x in r.legacy ::
         if r.legacy[x].client == client then r.legacy[x].(revoked := true) else r.legacy[x])
  }

  function CleanupLegacy(r: RefreshTables, now: Time): (after: RefreshTables) {
    r.(legacy := map x | x in r.legacy && r.legacy[x].expires > now :: r.legacy[x])
  }
}
