/**
 * The settings store after the configuration file has been read, as an
 * explicit record: every key the configuration code reads, by its
 * `GetString`/`GetInt`/`GetDuration` value, plus the path of the file that
 * was actually loaded (what `viper.ConfigFileUsed()` returns).
 */
module Settings {

  datatype Settings = Settings(
    serverUrl: string,                        // server_url
    listenAddr: string,                       // listen_addr
    privateKeyPath: string,                   // private_key_path
    derpMapPath: string,                      // derp_map_path
    ephemeralNodeInactivityTimeout: int,      // ephemeral_node_inactivity_timeout, in nanoseconds
    ephemeralNodeInactivityTimeoutText: string, // the same key read as a string
    dbType: string,                           // db_type
    dbPath: string,                           // db_path
    dbHost: string,                           // db_host
    dbPort: int,                              // db_port
    dbName: string,                           // db_name
    dbUser: string,                           // db_user
    dbPass: string,                           // db_pass
    tlsLetsEncryptHostname: string,           // tls_letsencrypt_hostname
    tlsLetsEncryptCacheDir: string,           // tls_letsencrypt_cache_dir
    tlsLetsEncryptChallengeType: string,      // tls_letsencrypt_challenge_type
    tlsCertPath: string,                      // tls_cert_path
    tlsKeyPath: string,                       // tls_key_path
    aclPolicyPath: string,                    // acl_policy_path
    configFileUsed: string                    // path of the configuration file read
  )
}
