/** The constant tables the configuration code reads. */
module Constants {

  /** The flags every chrome-family driver starts with. */
  const CHROME_DEFAULT_ARGUMENTS: seq<string> := [
    "--start-maximized",
    "--no-first-run",
    "--disable-backgrounding-occluded-windows",
    "--disable-hang-monitor",
    "--metrics-recording-only",
    "--disable-sync",
    "--disable-background-timer-throttling",
    "--disable-prompt-on-repost",
    "--disable-background-networking",
    "--disable-infobars",
    "--remote-allow-origins=*",
    "--homepage=about:blank",
    "--no-service-autorun",
    "--disable-ipc-flooding-protection",
    "--disable-session-crashed-bubble",
    "--force-fieldtrials=*BackgroundTracing/default/",
    "--disable-breakpad",
    "--password-store=basic",
    "--disable-features=IsolateOrigins,site-per-process",
    "--disable-client-side-phishing-detection",
    "--use-mock-keychain",
    "--no-pings",
    "--disable-renderer-backgrounding",
    "--disable-component-update",
    "--disable-dev-shm-usage",
    "--disable-default-apps",
    "--disable-domain-reliability",
    "--no-default-browser-check",
    "--disable-features=PrivacySandboxSettings4"
  ]

  /** DEFAULT_ARGUMENTS: only the chrome family has default flags. */
  const DEFAULT_ARGUMENTS: map<string, seq<string>> := map["chrome" := CHROME_DEFAULT_ARGUMENTS]

  /** The profile name used when none is given. */
  const DEFAULT_PROFILE: string := "Profile"

  /** Where a remote driver connects when the caller names no executor. */
  const DEFAULT_COMMAND_EXECUTOR: string := "http://0.0.0.0:4444/wd/hub"
}
