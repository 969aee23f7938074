/**
 * The migration of legacy password hashes: a stored hash shaped like a
 * SHA-256 hex digest is replaced, after a successful login, by a bcrypt
 * hash of the password.
 */
module AuthMigration {
  import opened Records

  /** The characters a hex digest may hold, in either case. */
  predicate IsHexChar(c: char)
  {
    c in "0123456789abcdefABCDEF"
  }

  /** `is_sha256_hash`: 64 characters, each a hex digit. */
  predicate IsSha256Hash(h: string)
  {
    |h| == 64 && forall i :: 0 <= i < |h| ==> IsHexChar(h[i])
  }

  /** A hex digit is a decimal digit or a letter a-f in either case. */
  lemma IsHexCharRanges(c: char)
    ensures IsHexChar(c) <==> '0' <= c <= '9' || 'a' <= c <= 'f' || 'A' <= c <= 'F'
  {
  }

  /** A bcrypt hash, which starts with '$', is never taken for a legacy hash. */
  lemma BcryptIsNotSha256(h: string)
    requires |h| > 0 && h[0] == '$'
    ensures !IsSha256Hash(h)
  {
    assert !IsHexChar(h[0]);
  }

  /** The `users` collection: one document of fields per user id. */
  class UserDocs {
    var docs: map<string, map<string, Value>>

    constructor (docs: map<string, map<string, Value>>)
      ensures this.docs == docs
    {
      this.docs := docs;
    }

    /**
     * `migrate_password_if_needed`: `newHash` is the bcrypt hash of the
     * password and `writeFails` says whether the store rejects the write.
     * Without a SHA-256-shaped hash nothing is written; the update of a
     * missing document and a failed write are both caught and reported as
     * False; otherwise `password_hash` is replaced and the result is True.
     */
    method MigratePasswordIfNeeded(userId: string, newHash: string, currentHash: string, writeFails: bool)
      returns (migrated: bool)
      modifies this
      ensures migrated <==> IsSha256Hash(currentHash) && userId in old(docs) && !writeFails
      ensures migrated ==> docs == old(docs)[userId := old(docs)[userId]["password_hash" := VStr(newHash)]]
      ensures !migrated ==> docs == old(docs)
    {
      if !IsSha256Hash(currentHash) {
        return false;
      }
      if userId !in docs || writeFails {
        return false;
      }
      docs := docs[userId := docs[userId]["password_hash" := VStr(newHash)]];
      migrated := true;
    }
  }
}
