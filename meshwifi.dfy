/** The WiFi layer of src/meshwifi/meshwifi.cpp as an object: the stored preferences it
    reads, whether the static API server port exists, and the log of calls it has made
    into the radio driver, the DNS responder and the downstream servers. */
module MeshWifi {
  import opened WifiSpec

  class WifiLayer {
    /** The preferences record; no operation of this layer writes it. */
    var config: Config
    /** Whether the static `apiPort` pointer is non-null. */
    var apiPortPresent: bool
    /** Every call made so far into foreign code, oldest first. Only ever appended to. */
    var log: seq<Action>

    ghost predicate Valid()
      reads this
    {
      ApiLogConsistent(log, apiPortPresent)
    }

    /** The state at boot: no API port yet, nothing called. */
    constructor (c: Config)
      ensures Valid()
      ensures config == c && !apiPortPresent && log == []
    {
      config := c;
      apiPortPresent := false;
      log := [];
    }

    /** deinitWifi: switch the radio off. Touches nothing else, so it is harmless before
        any initWifi. */
    method DeinitWifi()
      requires Valid()
      modifies this`log
      ensures Valid()
      ensures log == old(log) + [SetMode(ModeNull)]
    {
      AppendOther(log, apiPortPresent, [SetMode(ModeNull)]);
      log := log + [SetMode(ModeNull)];
    }

    /** initWifi: bring up the soft access point or join a network, as configured. */
    method InitWifi()
      requires Valid()
      modifies this`log
      ensures Valid()
      ensures log == old(log) + InitWifiActions(config)
    {
      if !IsWifiAvailable(config) {
        return;
      }
      if config.hasPreferences {
        var wifiName := CString(config.ssid);
        var wifiPsw := CString(config.password);
        if FirstCharSet(config.ssid) && FirstCharSet(config.password) {
          assert InitWifiActions(config) == if config.apMode then ApBringUp(config) else StaBringUp(config);
          ghost var before := log;
          if config.apMode {
            AppendOther(before, apiPortPresent, ApBringUp(config));
            log := log + [OnEvent];
            log := log + [SoftAPConfig(ApAddress, ApAddress, ApSubnetMask)];
            log := log + [SoftAP(wifiName, wifiPsw)];
            log := log + [DnsStart(DnsPort, DnsWildcard, ApAddress)];
            assert log == before + [OnEvent] + [SoftAPConfig(ApAddress, ApAddress, ApSubnetMask)] + [SoftAP(wifiName, wifiPsw)] + [DnsStart(DnsPort, DnsWildcard, ApAddress)];
            assert log == before + ApBringUp(config);
          } else {
            AppendOther(before, apiPortPresent, StaBringUp(config));
            log := log + [SetMode(ModeSta)];
            log := log + [OnEvent];
            log := log + [Begin(wifiName, wifiPsw)];
            assert log == before + StaBringUp(config);
          }
        }
      }
    }

    /** loopWifi: the idle hook; ticks the API port only once it exists. */
    method LoopWifi()
      requires Valid()
      modifies this`log
      ensures Valid()
      ensures log == old(log) + LoopActions(apiPortPresent)
    {
      if apiPortPresent {
        AppendApiLoop(log);
        log := log + [ApiLoop];
      }
    }

    /** initApiServer: create the API port on the first call only. */
    method InitApiServer()
      requires Valid()
      modifies this`apiPortPresent, this`log
      ensures Valid()
      ensures apiPortPresent
      ensures old(apiPortPresent) ==> log == old(log)
      ensures !old(apiPortPresent) ==> log == old(log) + [ApiInit]
    {
      if !apiPortPresent {
        AppendApiInit(log);
        apiPortPresent := true;
        log := log + [ApiInit];
      }
    }

    /** WiFiEvent: the radio event handler. A lost connection rejoins, an obtained
        address or a started access point starts the web server and the API server;
        every other event only prints a diagnostic. */
    method WiFiEvent(e: SystemEvent)
      requires Valid()
      modifies this`apiPortPresent, this`log
      ensures Valid()
      ensures apiPortPresent == EventEffect(config, old(apiPortPresent), e).apiPortPresent
      ensures log == old(log) + EventEffect(config, old(apiPortPresent), e).actions
    {
      match e
      case StaDisconnected =>
        ReconnectWiFi();
      case StaGotIp =>
        StartServers();
      case ApStart =>
        StartServers();
      case _ =>
    }

    /** The two calls both service-starting events make: initWebServer, which is not
        guarded, then initApiServer. */
    method StartServers()
      requires Valid()
      modifies this`apiPortPresent, this`log
      ensures Valid()
      ensures apiPortPresent
      ensures log == old(log) + [InitWebServer] + (if old(apiPortPresent) then [] else [ApiInit])
    {
      AppendOther(log, apiPortPresent, [InitWebServer]);
      log := log + [InitWebServer];
      InitApiServer();
    }

    /** handleDNSResponse: poll the DNS responder, only with the access-point flag set. */
    method HandleDNSResponse()
      requires Valid()
      modifies this`log
      ensures Valid()
      ensures log == old(log) + DnsTickActions(config)
    {
      if config.apMode {
        AppendOther(log, apiPortPresent, [DnsProcess]);
        log := log + [DnsProcess];
      }
    }

    /** reconnectWiFi: station mode and a new join request with the stored credentials,
        when preferences and both credentials exist; otherwise nothing. */
    method ReconnectWiFi()
      requires Valid()
      modifies this`log
      ensures Valid()
      ensures log == old(log) + ReconnectActions(config)
    {
      var wifiName := CString(config.ssid);
      var wifiPsw := CString(config.password);
      if config.hasPreferences {
        if FirstCharSet(config.ssid) && FirstCharSet(config.password) {
          ghost var before := log;
          AppendOther(before, apiPortPresent, ReconnectActions(config));
          log := log + [SetMode(ModeSta)];
          log := log + [Begin(wifiName, wifiPsw)];
          assert log == before + ReconnectActions(config);
        }
      }
    }
  }

  /** Empty credentials: initWifi changes no mode and registers no handler. */
  method EmptyCredentialsScenario()
  {
    var w := new WifiLayer(Config(true, "", "", false));
    w.InitWifi();
    assert w.log == [];
    w.DeinitWifi();
    assert w.log == [SetMode(ModeNull)] && !w.apiPortPresent;
  }

  /** Access-point configuration: bring-up at 192.168.42.1 with the stored credentials. */
  method AccessPointScenario()
  {
    var c := Config(true, "net", "pw", true);
    CStringUnterminated(c.ssid);
    CStringUnterminated(c.password);
    var w := new WifiLayer(c);
    w.InitWifi();
    InitWifiAccessPoint(c);
    assert w.log[2] == SoftAP("net", "pw");
    assert w.log[3] == DnsStart(53, "*", IPv4(192, 168, 42, 1));
  }

  /** Two access-point start events launch the web server twice and the API server once;
      afterwards both idle hooks act. */
  method AccessPointEventsScenario()
  {
    var w := new WifiLayer(Config(true, "net", "pw", true));
    w.WiFiEvent(ApStart);
    assert w.log == [InitWebServer, ApiInit];
    w.WiFiEvent(ApStart);
    assert w.log == [InitWebServer, ApiInit, InitWebServer];
    w.HandleDNSResponse();
    w.LoopWifi();
    assert w.log[3..] == [DnsProcess, ApiLoop];
  }

  /** Station configuration: one join with the text before the terminator. */
  method StationScenario()
  {
    var c := Config(true, "net" + ['\0'] + "xy", "pw", false);
    CStringRoundTrip("net", "xy");
    CStringUnterminated(c.password);
    var w := new WifiLayer(c);
    w.InitWifi();
    InitWifiStation(c);
    assert w.log == [SetMode(ModeSta), OnEvent, Begin("net", "pw")];
  }

  /** Station events: services on the obtained address, then a rejoin with unchanged
      credentials on each lost connection, and no DNS poll. */
  method StationEventsScenario()
  {
    var c := Config(true, "net", "pw", false);
    CStringUnterminated(c.ssid);
    CStringUnterminated(c.password);
    var w := new WifiLayer(c);
    w.WiFiEvent(StaGotIp);
    assert w.apiPortPresent && w.log == [InitWebServer, ApiInit];
    w.WiFiEvent(StaDisconnected);
    w.WiFiEvent(StaDisconnected);
    assert w.log[2..] == [SetMode(ModeSta), Begin("net", "pw"), SetMode(ModeSta), Begin("net", "pw")];
    assert w.config == c;
    w.HandleDNSResponse();
    assert |w.log| == 6;
  }
}
