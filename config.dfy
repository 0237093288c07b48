/** The database URL the application is configured with, assembled from environment variables. */
module Config {
  import opened Wrappers

  const MysqlScheme: string := "mysql+pymysql://"
  const SqliteUrl: string := "sqlite:///app.db"

  /** os.getenv(key): None when the variable is not set. */
  function Getenv(env: map<string, string>, key: string): Option<string> {
    if key in env then Some(env[key]) else None
  }

  /** Python truthiness of an optional string: set and non-empty. */
  predicate Truthy(v: Option<string>) {
    v.Some? && v.value != ""
  }

  /** The user-info part of the MySQL URL: `user:pass`, or `user` when the password is empty. */
  function Credentials(user: string, password: string): string {
    if password != "" then user + ":" + password else user
  }

  /** The `:pass` part appears exactly when the password is non-empty (for a user name without ':'). */
  lemma PasswordSegmentOnlyWhenSet(user: string, password: string)
    requires ':' !in user
    ensures ':' in Credentials(user, password) <==> password != ""
  {
  }

  /**
   * The configuration sequence: DATABASE_URL wins when it is non-empty; otherwise a MySQL
   * URL when DB_USERNAME is non-empty and DB_DATABASE is set (host and port default to
   * 127.0.0.1 and 3306 when unset); otherwise a local SQLite file.
   */
  method ConfigureDatabaseUrl(env: map<string, string>) returns (url: string)
    ensures Truthy(Getenv(env, "DATABASE_URL")) ==> url == env["DATABASE_URL"]
    ensures !Truthy(Getenv(env, "DATABASE_URL")) && Truthy(Getenv(env, "DB_USERNAME")) && "DB_DATABASE" in env ==>
              url == MysqlScheme + Credentials(env["DB_USERNAME"], Getenv(env, "DB_PASSWORD").GetOr(""))
                     + "@" + Getenv(env, "DB_HOST").GetOr("127.0.0.1")
                     + ":" + Getenv(env, "DB_PORT").GetOr("3306")
                     + "/" + env["DB_DATABASE"]
    ensures !Truthy(Getenv(env, "DATABASE_URL")) && !(Truthy(Getenv(env, "DB_USERNAME")) && "DB_DATABASE" in env) ==>
              url == SqliteUrl
  {
    var databaseUrl := Getenv(env, "DATABASE_URL");
    if !Truthy(databaseUrl) {
      var dbUser := Getenv(env, "DB_USERNAME");
      var dbPass := Getenv(env, "DB_PASSWORD");
      var dbHost := Getenv(env, "DB_HOST").GetOr("127.0.0.1");
      var dbPort := Getenv(env, "DB_PORT").GetOr("3306");
      var dbName := Getenv(env, "DB_DATABASE");
      if Truthy(dbUser) && dbName.Some? {
        if Truthy(dbPass) {
          databaseUrl := Some(MysqlScheme + dbUser.value + ":" + dbPass.value + "@" + dbHost + ":" + dbPort + "/" + dbName.value);
        } else {
          databaseUrl := Some(MysqlScheme + dbUser.value + "@" + dbHost + ":" + dbPort + "/" + dbName.value);
        }
      } else {
        databaseUrl := Some(SqliteUrl);
      }
    }
    url := databaseUrl.value;
  }
}
