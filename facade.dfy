/** The Client facade (client.py): one core client created at construction,
    and six feature clients created lazily from it on first access and
    cached in their slots. */
module Facade {
  import opened Config
  import opened CoreClient

  class Client {
    const core: CameraClient
    var device: FeatureClient?
    var network: FeatureClient?
    var media: FeatureClient?
    var geocoordinates: FeatureClient?
    var mqttClient: FeatureClient?
    var analyticsMqtt: FeatureClient?

    /** The slot that caches the feature client of one kind. */
    function Slot(kind: FeatureKind): FeatureClient?
      reads this
    {
      match kind
      case DeviceFeature => device
      case NetworkFeature => network
      case MediaFeature => media
      case GeoCoordinatesFeature => geocoordinates
      case MqttClientFeature => mqttClient
      case AnalyticsMqttFeature => analyticsMqtt
    }

    /** A filled slot holds a client of its own kind built on the shared core. */
    predicate Fits(f: FeatureClient?, kind: FeatureKind) {
      f != null ==> f.kind == kind && f.camera == core
    }

    /** Every slot fits its kind. */
    ghost predicate Valid()
      reads this
    {
      && Fits(device, DeviceFeature) && Fits(network, NetworkFeature) && Fits(media, MediaFeature)
      && Fits(geocoordinates, GeoCoordinatesFeature) && Fits(mqttClient, MqttClientFeature)
      && Fits(analyticsMqtt, AnalyticsMqttFeature)
    }

    twostate predicate OnlySlotChanged(kind: FeatureKind)
      reads this
    {
      forall other :: other != kind ==> Slot(other) == old(Slot(other))
    }

    constructor (config: CameraConfig)
      ensures fresh(core) && core.config == config
      ensures forall kind :: Slot(kind) == null
      ensures Valid()
    {
      core := new CameraClient(config);
      device, network, media, geocoordinates, mqttClient, analyticsMqtt := null, null, null, null, null, null;
    }

    method Device() returns (f: FeatureClient)
      requires Valid()
      modifies this`device
      ensures Valid() && device == f && OnlySlotChanged(DeviceFeature)
      ensures old(device) != null ==> f == old(device)
      ensures old(device) == null ==> fresh(f) && f.kind == DeviceFeature && f.camera == core
    {
      if device == null {
        device := new FeatureClient(DeviceFeature, core);
      }
      f := device;
    }

    method Network() returns (f: FeatureClient)
      requires Valid()
      modifies this`network
      ensures Valid() && network == f && OnlySlotChanged(NetworkFeature)
      ensures old(network) != null ==> f == old(network)
      ensures old(network) == null ==> fresh(f) && f.kind == NetworkFeature && f.camera == core
    {
      if network == null {
        network := new FeatureClient(NetworkFeature, core);
      }
      f := network;
    }

    method Media() returns (f: FeatureClient)
      requires Valid()
      modifies this`media
      ensures Valid() && media == f && OnlySlotChanged(MediaFeature)
      ensures old(media) != null ==> f == old(media)
      ensures old(media) == null ==> fresh(f) && f.kind == MediaFeature && f.camera == core
    {
      if media == null {
        media := new FeatureClient(MediaFeature, core);
      }
      f := media;
    }

    method GeoCoordinates() returns (f: FeatureClient)
      requires Valid()
      modifies this`geocoordinates
      ensures Valid() && geocoordinates == f && OnlySlotChanged(GeoCoordinatesFeature)
      ensures old(geocoordinates) != null ==> f == old(geocoordinates)
      ensures old(geocoordinates) == null ==> fresh(f) && f.kind == GeoCoordinatesFeature && f.camera == core
    {
      if geocoordinates == null {
        geocoordinates := new FeatureClient(GeoCoordinatesFeature, core);
      }
      f := geocoordinates;
    }

    method MqttClient() returns (f: FeatureClient)
      requires Valid()
      modifies this`mqttClient
      ensures Valid() && mqttClient == f && OnlySlotChanged(MqttClientFeature)
      ensures old(mqttClient) != null ==> f == old(mqttClient)
      ensures old(mqttClient) == null ==> fresh(f) && f.kind == MqttClientFeature && f.camera == core
    {
      if mqttClient == null {
        mqttClient := new FeatureClient(MqttClientFeature, core);
      }
      f := mqttClient;
    }

    method AnalyticsMqtt() returns (f: FeatureClient)
      requires Valid()
      modifies this`analyticsMqtt
      ensures Valid() && analyticsMqtt == f && OnlySlotChanged(AnalyticsMqttFeature)
      ensures old(analyticsMqtt) != null ==> f == old(analyticsMqtt)
      ensures old(analyticsMqtt) == null ==> fresh(f) && f.kind == AnalyticsMqttFeature && f.camera == core
    {
      if analyticsMqtt == null {
        analyticsMqtt := new FeatureClient(AnalyticsMqttFeature, core);
      }
      f := analyticsMqtt;
    }
  }
}
